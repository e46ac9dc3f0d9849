/** The review commit: one transaction that turns every draft of a session into a guide, keeps the images the
    guides use and reserves the deletion of the rest. */
module GuideReview {
  import opened Common
  import opened Guides
  import Entities

  type Key = Entities.Key

  datatype Image = Image(owner: Id, purpose: Entities.Purpose, key: Key, revision: int)

  datatype DraftStatus = Editing | Saved

  datatype Draft = Draft(
    session: Id, position: int, title: string, steps: seq<GuideStep>, status: DraftStatus, revision: int, guide: Option<Id>)

  /** A guide with the steps of its first version. */
  datatype Guide = Guide(user: Id, title: string, steps: seq<GuideStep>)

  datatype SessionStatus = GeneratingGuide | ReviewingGuide | Ended

  datatype Session = Session(
    user: Id, screenshot: Id, status: SessionStatus, job: Option<Id>, batch: Option<Id>, guide: Option<Id>, revision: int)

  /** `tasks` maps an object's key to the artifact its deletion task names; `materials` maps a material's
      artifact to its batch, `batches` a batch to its session. */
  datatype Tables = Tables(
    images: map<Id, Image>, tasks: map<Key, Option<Id>>, drafts: map<Id, Draft>, guides: map<Id, Guide>,
    sessions: map<Id, Session>, jobs: set<Id>, materials: map<Id, Id>, batches: map<Id, Id>)
  {
    /** What the other transactions keep (see `ArtifactInvariant`): an image's key is its own, a task on an
        image's key names the image, and a material is an image of its purpose. */
    ghost predicate Valid() {
      && (forall a :: a in images ==> images[a].key == Entities.Key(images[a].owner, a))
      && (forall a :: a in images && images[a].key in tasks ==> tasks[images[a].key] == Some(a))
      && (forall k :: k in tasks && tasks[k].Some? ==> tasks[k].value == k.id)
      && (forall m :: m in materials ==>
            m in images && images[m].purpose == Entities.GuideMaterial && materials[m] in batches)
      && (forall n :: n in sessions ==> sessions[n].screenshot in images
                                        && images[sessions[n].screenshot].purpose == Entities.RequestScreenshot)
    }
  }

  // ------------------------------------------------------------------------------ the draft set

  /** The drafts of a session, as the locking query lists them: all of them, once each, by position. */
  ghost predicate Lists(drafts: map<Id, Draft>, session: Id, listed: seq<Id>) {
    && (forall d :: d in listed <==> d in drafts && drafts[d].session == session)
    && (forall i, j :: 0 <= i < j < |listed| ==> listed[i] != listed[j])
    && (forall i, j :: 0 <= i < j < |listed| ==> drafts[listed[i]].position <= drafts[listed[j]].position)
  }

  datatype Expected = Expected(draft: Id, revision: int)

  /** The command names every draft of the session exactly once, at its current revision, all being edited. */
  ghost predicate NamesAll(command: seq<Expected>, drafts: map<Id, Draft>, session: Id) {
    && command != []
    && (forall i, j :: 0 <= i < j < |command| ==> command[i].draft != command[j].draft)
    && (forall i :: 0 <= i < |command| ==>
          && Entities.ValidId(command[i].draft) && command[i].revision >= 1
          && command[i].draft in drafts && drafts[command[i].draft].session == session
          && drafts[command[i].draft].revision == command[i].revision)
    && (forall d :: d in drafts && drafts[d].session == session ==>
          drafts[d].status == Editing && exists i :: 0 <= i < |command| && command[i].draft == d)
  }

  /** The first `n` pairs have valid IDs, name no draft twice and ask for revisions from one on. */
  ghost predicate WellFormed(command: seq<Expected>, n: nat)
    requires n <= |command|
  {
    && (forall i, j :: 0 <= i < j < n ==> command[i].draft != command[j].draft)
    && (forall i :: 0 <= i < n ==> Entities.ValidId(command[i].draft) && command[i].revision >= 1)
  }

  ghost function Named(command: seq<Expected>, n: nat): set<Id>
    requires n <= |command|
  {
    set i | 0 <= i < n :: command[i].draft
  }

  ghost predicate Collects(m: map<Id, int>, command: seq<Expected>, n: nat)
    requires n <= |command|
  {
    && |m| == n && m.Keys == Named(command, n)
    && forall i :: 0 <= i < n ==> command[i].draft in m && m[command[i].draft] == command[i].revision
  }

  lemma NamedGrows(command: seq<Expected>, n: nat)
    requires n < |command|
    ensures Named(command, n + 1) == Named(command, n) + {command[n].draft}
    ensures forall i :: 0 <= i < n ==> command[i].draft in Named(command, n)
  {
  }

  lemma CollectOne(m: map<Id, int>, command: seq<Expected>, n: nat)
    requires n < |command| && Collects(m, command, n) && command[n].draft !in m
    ensures Collects(m[command[n].draft := command[n].revision], command, n + 1)
    ensures forall i :: 0 <= i < n ==> command[i].draft != command[n].draft
  {
    var d, r := command[n].draft, command[n].revision;
    NamedGrows(command, n);
    hide Named;
    AddKey(m, d, r);
    forall i | 0 <= i < n + 1
      ensures command[i].draft in m[d := r] && m[d := r][command[i].draft] == command[i].revision
    {
    }
  }

  lemma AddKey(m: map<Id, int>, d: Id, r: int)
    requires d !in m
    ensures m[d := r].Keys == m.Keys + {d} && |m[d := r]| == |m| + 1
  {
    assert m[d := r].Keys == m.Keys + {d};
  }

  lemma CollectNone(command: seq<Expected>)
    ensures Collects(map[], command, 0)
  {
  }

  lemma Repeats(m: map<Id, int>, command: seq<Expected>, n: nat)
    requires n < |command| && Collects(m, command, n) && command[n].draft in m
    ensures exists i :: 0 <= i < n && command[i].draft == command[n].draft
  {
    assert command[n].draft in Named(command, n);
  }

  /** The revisions a command asks for, by draft, unless one is named twice or has no valid ID or revision. */
  method CollectRevisions(command: seq<Expected>) returns (revisions: Option<map<Id, int>>)
    ensures revisions.Some? <==> WellFormed(command, |command|)
    ensures revisions.Some? ==> Collects(revisions.value, command, |command|)
  {
    hide Collects, Entities.ValidId;
    CollectNone(command);
    var m: map<Id, int> := map[];
    for i := 0 to |command|
      invariant Collects(m, command, i) && WellFormed(command, i)
    {
      if !Entities.ValidId(command[i].draft) {
        return None;
      }
      if command[i].revision < 1 {
        return None;
      }
      if command[i].draft in m {
        Repeats(m, command, i);
        return None;
      }
      CollectOne(m, command, i);
      m := m[command[i].draft := command[i].revision];
    }
    return Some(m);
  }

  /** Distinct elements of one list that all lie in an equally large set make up the whole set. */
  lemma {:induction false} Pigeonhole(listed: seq<Id>, keys: set<Id>)
    requires forall i, j :: 0 <= i < j < |listed| ==> listed[i] != listed[j]
    requires forall d :: d in listed ==> d in keys
    requires |listed| == |keys|
    ensures forall d :: d in keys ==> d in listed
  {
    if listed != [] {
      var last := listed[|listed| - 1];
      var front := listed[..|listed| - 1];
      Pigeonhole(front, keys - {last});
      forall d | d in keys ensures d in listed {
        if d != last {
          assert d in front;
        }
      }
    }
  }

  lemma {:induction false} ListCardinality(listed: seq<Id>, keys: set<Id>)
    requires forall i, j :: 0 <= i < j < |listed| ==> listed[i] != listed[j]
    requires forall d :: d in listed <==> d in keys
    ensures |listed| == |keys|
  {
    if listed == [] {
      assert keys == {};
    } else {
      var last := listed[|listed| - 1];
      var front := listed[..|listed| - 1];
      forall d ensures d in front <==> d in keys - {last} {
        if d in keys - {last} {
          var i :| 0 <= i < |listed| && listed[i] == d;
          assert front[i] == d;
        }
      }
      ListCardinality(front, keys - {last});
    }
  }

  /** The duplicate check, the count check and the lookup together are set equality. */
  method CheckDraftSet(command: seq<Expected>, drafts: map<Id, Draft>, session: Id, listed: seq<Id>) returns (ok: bool)
    requires Lists(drafts, session, listed)
    ensures ok <==> NamesAll(command, drafts, session)
  {
    hide Entities.ValidId;
    if |command| == 0 {
      return false;
    }
    var collected := CollectRevisions(command);
    if collected.None? {
      return false;
    }
    var revisions := collected.value;
    if |listed| != |revisions| {
      if NamesAll(command, drafts, session) {
        forall d ensures d in listed <==> d in revisions.Keys {
        }
        ListCardinality(listed, revisions.Keys);
      }
      return false;
    }
    for i := 0 to |listed|
      invariant forall j :: 0 <= j < i ==>
        listed[j] in revisions && drafts[listed[j]].status == Editing && drafts[listed[j]].revision == revisions[listed[j]]
    {
      var d := listed[i];
      assert d in listed;
      if d !in revisions || drafts[d].session != session || drafts[d].status != Editing
         || drafts[d].revision != revisions[d] {
        return false;
      }
    }
    Pigeonhole(listed, revisions.Keys);
    forall i | 0 <= i < |command|
      ensures command[i].draft in drafts && drafts[command[i].draft].session == session
              && drafts[command[i].draft].revision == command[i].revision
    {
      assert command[i].draft in revisions.Keys;
      assert command[i].draft in listed;
    }
    return true;
  }

  // ---------------------------------------------------------------------- what the commit leaves

  function StepImages(steps: seq<GuideStep>): set<Id> {
    set i | 0 <= i < |steps| :: steps[i].artifact
  }

  /** The images that the steps of the first drafts use. */
  function UsedBy(drafts: map<Id, Draft>, listed: seq<Id>): set<Id>
    decreases |listed|
  {
    if listed == [] then {}
    else
      var last := listed[|listed| - 1];
      UsedBy(drafts, listed[..|listed| - 1]) + if last in drafts then StepImages(drafts[last].steps) else {}
  }

  /** Materials among the used images become guide steps. */
  function Promoted(images: map<Id, Image>, used: set<Id>): map<Id, Image> {
    map a | a in images :: if a in used && images[a].purpose == Entities.GuideMaterial
                           then images[a].(purpose := Entities.GuideStep, revision := images[a].revision + 1) else images[a]
  }

  function KeysOf(images: map<Id, Image>, ids: set<Id>): set<Key> {
    set a | a in ids && a in images :: images[a].key
  }

  /** A task for each image that has none. */
  function Queued(tasks: map<Key, Option<Id>>, images: map<Id, Image>, ids: set<Id>): map<Key, Option<Id>> {
    map k | k in tasks.Keys + KeysOf(images, ids) :: if k in tasks then tasks[k] else Some(k.id)
  }

  function MaterialsOf(t: Tables, session: Id): set<Id> {
    set m | m in t.materials && t.materials[m] in t.batches && t.batches[t.materials[m]] == session
  }

  /** Images that a draft of the session may use: its materials and the initial screenshot, if not reserved. */
  predicate MayUse(t: Tables, session: Id, a: Id)
    requires session in t.sessions
  {
    && a in t.images && t.images[a].owner == t.sessions[session].user
    && (forall k :: k in t.tasks ==> t.tasks[k] != Some(a))
    && ((a == t.sessions[session].screenshot && t.images[a].purpose == Entities.RequestScreenshot)
        || (a in MaterialsOf(t, session) && t.images[a].purpose == Entities.GuideMaterial))
  }

  /** A guide may show the image: its user's, with no task that names it, and either the screenshot of the
      session's request or a material of one of the session's batches. */
  ghost predicate Showable(t: Tables, session: Id, a: Id)
    requires session in t.sessions
  {
    && a in t.images && t.images[a].owner == t.sessions[session].user
    && !(exists k :: k in t.tasks && t.tasks[k] == Some(a))
    && match t.images[a].purpose
       case RequestScreenshot => a == t.sessions[session].screenshot
       case GuideMaterial => a in t.materials && t.materials[a] in t.batches && t.batches[t.materials[a]] == session
       case GuideStep => false
  }

  /** A title of up to forty characters, and one to eight steps, numbered from one, each with an instruction of up
      to 120 characters and an image that may be shown. */
  ghost predicate DraftReady(t: Tables, session: Id, d: Draft)
    requires session in t.sessions
  {
    && !Entities.Blank(d.title) && 1 <= |d.title| <= 40
    && 1 <= |d.steps| <= 8
    && forall i :: 0 <= i < |d.steps| ==>
         && d.steps[i].position == i + 1
         && !Entities.Blank(d.steps[i].instruction) && 1 <= |d.steps[i].instruction| <= 120
         && Showable(t, session, d.steps[i].artifact)
  }

  ghost predicate DraftsReady(t: Tables, session: Id)
    requires session in t.sessions
  {
    forall d :: d in t.drafts && t.drafts[d].session == session ==> DraftReady(t, session, t.drafts[d])
  }

  function WithoutBatch(materials: map<Id, Id>, batch: Id): map<Id, Id> {
    map m | m in materials && materials[m] != batch :: materials[m]
  }

  /** Used materials are promoted, the session's other materials queued. */
  ghost predicate ImagesKept(t: Tables, t': Tables, session: Id, listed: seq<Id>) {
    var used := UsedBy(t.drafts, listed);
    t'.images == Promoted(t.images, used) && t'.tasks == Queued(t.tasks, t'.images, MaterialsOf(t, session) - used)
  }

  /** The tables of a committed review, seen from the tables it started with. */
  ghost predicate Reviewed(t: Tables, t': Tables, session: Id, listed: seq<Id>, guideIds: seq<Id>) {
    && session in t.sessions && t.sessions[session].job.Some? && t.sessions[session].batch.Some?
    && |guideIds| == |listed| && listed != []
    && ImagesKept(t, t', session, listed)
    && SavedAs(t.drafts, t'.drafts, listed, guideIds, |listed|)
    && GuidesFrom(t.guides, t'.guides, t.drafts, t.sessions[session].user, listed, guideIds, |listed|)
    && t'.sessions == t.sessions[session := t.sessions[session].(
         status := Ended, guide := Some(guideIds[0]), job := None, batch := None,
         revision := t.sessions[session].revision + 1)]
    && t'.jobs == t.jobs - {t.sessions[session].job.value}
    && t'.materials == WithoutBatch(t.materials, t.sessions[session].batch.value)
    && t'.batches == t.batches - {t.sessions[session].batch.value}
  }

  /** The first `n` listed drafts are saved, each with its guide; no other draft changes. */
  ghost predicate SavedAs(drafts: map<Id, Draft>, drafts': map<Id, Draft>, listed: seq<Id>, guideIds: seq<Id>, n: nat)
    requires n <= |listed| == |guideIds|
  {
    && drafts'.Keys == drafts.Keys
    && (forall i :: 0 <= i < n ==> listed[i] in drafts && drafts'[listed[i]] == SavedDraft(drafts[listed[i]], guideIds[i]))
    && (forall d :: d in drafts && (forall i :: 0 <= i < n ==> listed[i] != d) ==> drafts'[d] == drafts[d])
  }

  function SavedDraft(d: Draft, guide: Id): Draft {
    d.(status := Saved, guide := Some(guide), revision := d.revision + 1)
  }

  function GuideOf(user: Id, d: Draft): Guide { Guide(user, d.title, d.steps) }

  /** One new guide for each of the first `n` listed drafts, in order, with the draft's title and steps. */
  ghost predicate GuidesFrom(
    guides: map<Id, Guide>, guides': map<Id, Guide>, drafts: map<Id, Draft>, user: Id, listed: seq<Id>,
    guideIds: seq<Id>, n: nat)
    requires n <= |listed| == |guideIds|
  {
    && (forall i :: 0 <= i < n ==>
          && listed[i] in drafts && guideIds[i] in guides'
          && guides'[guideIds[i]] == GuideOf(user, drafts[listed[i]]))
    && (forall g :: g in guides ==> g in guides' && guides'[g] == guides[g])
    && (forall g :: g in guides' ==> g in guides || exists i :: 0 <= i < n && guideIds[i] == g)
  }

  // --------------------------------------------------------------------------------- the commit

  class Store {
    var images: map<Id, Image>
    var tasks: map<Key, Option<Id>>
    var drafts: map<Id, Draft>
    var guides: map<Id, Guide>
    var sessions: map<Id, Session>
    var jobs: set<Id>
    var materials: map<Id, Id>
    var batches: map<Id, Id>

    function View(): Tables
      reads this
    {
      Tables(images, tasks, drafts, guides, sessions, jobs, materials, batches)
    }

    constructor (t: Tables)
      ensures View() == t
    {
      images, tasks, drafts, guides := t.images, t.tasks, t.drafts, t.guides;
      sessions, jobs, materials, batches := t.sessions, t.jobs, t.materials, t.batches;
    }

    method PromoteArtifact(a: Id)
      modifies `images
      ensures images == if a in old(images) && old(images)[a].purpose == Entities.GuideMaterial
                        then old(images)[a := old(images)[a].(purpose := Entities.GuideStep,
                                                              revision := old(images)[a].revision + 1)]
                        else old(images)
    {
      if a in images && images[a].purpose == Entities.GuideMaterial {
        images := images[a := images[a].(purpose := Entities.GuideStep, revision := images[a].revision + 1)];
      }
    }

    /** Creates the guide and its first version of one draft, step by step, and promotes each image when it is
        first used. `base` holds the images as they were before any was promoted. */
    method SaveOneDraft(d: Id, guideId: Id, user: Id, seen: set<Id>, ghost base: map<Id, Image>) returns (seen': set<Id>)
      requires d in drafts && guideId !in guides && images == Promoted(base, seen)
      modifies `images, `drafts, `guides
      ensures seen' == seen + StepImages(old(drafts)[d].steps) && images == Promoted(base, seen')
      ensures guides == old(guides)[guideId := GuideOf(user, old(drafts)[d])]
      ensures drafts == old(drafts)[d := SavedDraft(old(drafts)[d], guideId)]
    {
      var draft := drafts[d];
      guides := guides[guideId := Guide(user, draft.title, [])];
      seen' := seen;
      for i := 0 to |draft.steps|
        invariant seen' == seen + StepImages(draft.steps[..i]) && images == Promoted(base, seen')
        invariant guides == old(guides)[guideId := Guide(user, draft.title, draft.steps[..i])]
        invariant drafts == old(drafts)
      {
        var a := draft.steps[i].artifact;
        guides := guides[guideId := Guide(user, draft.title, guides[guideId].steps + [draft.steps[i]])];
        assert draft.steps[..i + 1] == draft.steps[..i] + [draft.steps[i]];
        StepImagesGrow(draft.steps, i);
        if a !in seen' {
          PromotedGrows(base, seen', a);
          PromoteArtifact(a);
          seen' := seen' + {a};
        }
      }
      assert draft.steps[..|draft.steps|] == draft.steps;
      drafts := drafts[d := draft.(status := Saved, guide := Some(guideId), revision := draft.revision + 1)];
    }

    /** The new guides and saved drafts, one after the other. */
    method SaveDrafts(session: Id, listed: seq<Id>, guideIds: seq<Id>) returns (used: set<Id>)
      requires session in sessions && |guideIds| == |listed| && Lists(drafts, session, listed)
      requires NewGuides(guides, guideIds)
      modifies `images, `drafts, `guides
      ensures used == UsedBy(old(drafts), listed) && images == Promoted(old(images), used)
      ensures SavedAs(old(drafts), drafts, listed, guideIds, |listed|)
      ensures GuidesFrom(old(guides), guides, old(drafts), sessions[session].user, listed, guideIds, |listed|)
    {
      hide StepImages, Promoted, SavedAs, GuidesFrom;
      used := {};
      ghost var base, rows := images, drafts;
      PromotedNone(base);
      var user := sessions[session].user;
      NothingSaved(drafts, guides, user, listed, guideIds);
      for i := 0 to |listed|
        invariant used == UsedBy(rows, listed[..i]) && images == Promoted(base, used)
        invariant SavedAs(rows, drafts, listed, guideIds, i)
        invariant GuidesFrom(old(guides), guides, rows, user, listed, guideIds, i)
      {
        assert listed[i] in listed;
        SaveNextDraft(rows, drafts, listed, guideIds, i);
        CreateNextGuide(old(guides), guides, rows, user, listed, guideIds, i);
        used := SaveOneDraft(listed[i], guideIds[i], user, used, base);
        assert listed[..i + 1][..i] == listed[..i];
      }
      assert listed[..|listed|] == listed;
    }

    /** One deletion task after the other, where the key has none. */
    method QueueUnused(unused: set<Id>)
      requires forall a :: a in unused ==> a in images && images[a].key.id == a
      modifies `tasks
      ensures tasks == Queued(old(tasks), images, unused)
    {
      var rest := unused;
      ghost var done: set<Id> := {};
      assert Queued(old(tasks), images, {}) == tasks;
      while rest != {}
        invariant rest <= unused && done == unused - rest && tasks == Queued(old(tasks), images, done)
        decreases |rest|
      {
        var a :| a in rest;
        QueuedGrows(old(tasks), images, done, a);
        if images[a].key !in tasks {
          tasks := tasks[images[a].key := Some(a)];
        }
        rest := rest - {a};
        done := done + {a};
      }
      assert done == unused;
    }

    method ListAllowedDraftArtifacts(session: Id) returns (allowed: set<Id>)
      requires session in sessions
      ensures forall a :: a in allowed <==> MayUse(View(), session, a)
    {
      allowed := set a | a in images && MayUse(View(), session, a);
    }

    /** All drafts are checked before anything is written. */
    method DraftsValid(session: Id, listed: seq<Id>) returns (ok: bool)
      requires session in sessions && forall d :: d in listed ==> d in drafts
      ensures ok <==> AllValid(View(), session, listed)
    {
      var allowed := ListAllowedDraftArtifacts(session);
      assert allowed == AllowedImages(View(), session);
      for i := 0 to |listed|
        invariant forall j :: 0 <= j < i ==> ValidContent(drafts[listed[j]].title, drafts[listed[j]].steps, allowed)
      {
        assert listed[i] in listed;
        var valid := ValidateGuideDraftContent(drafts[listed[i]].title, drafts[listed[i]].steps, allowed);
        if !valid {
          return false;
        }
      }
      return true;
    }

    /** The images: guides keep the ones they use, the session's other materials are queued for deletion. */
    method KeepImages(session: Id, listed: seq<Id>, guideIds: seq<Id>, material: set<Id>)
      requires session in sessions && Lists(drafts, session, listed) && |guideIds| == |listed| && NewGuides(guides, guideIds)
      requires forall m :: m in material ==> m in images && images[m].key.id == m
      modifies `images, `drafts, `guides, `tasks
      ensures var used := UsedBy(old(drafts), listed);
              images == Promoted(old(images), used) && tasks == Queued(old(tasks), images, material - used)
      ensures SavedAs(old(drafts), drafts, listed, guideIds, |listed|)
      ensures GuidesFrom(old(guides), guides, old(drafts), sessions[session].user, listed, guideIds, |listed|)
    {
      hide Promoted, Queued, SavedAs, GuidesFrom, UsedBy, NewGuides;
      var used := SaveDrafts(session, listed, guideIds);
      PromotedKeys(old(images), used);
      QueueUnused(material - used);
    }

    /** Everything the review writes. */
    method CommitReview(session: Id, listed: seq<Id>, guideIds: seq<Id>)
      requires Keyed(images, materials) && session in sessions
      requires sessions[session].job.Some? && sessions[session].batch.Some?
      requires Lists(drafts, session, listed) && listed != []
      requires |guideIds| == |listed| && NewGuides(guides, guideIds)
      modifies this
      ensures Reviewed(old(View()), View(), session, listed, guideIds)
    {
      hide Promoted, Queued, SavedAs, GuidesFrom, UsedBy, NewGuides, WithoutBatch;
      KeepImages(session, listed, guideIds, MaterialsOf(View(), session));
      FinishSession(session, guideIds[0]);
    }

    /** The review commit of a locked session and its complete draft set. */
    method PersistReviewedDrafts(session: Id, listed: seq<Id>, guideIds: seq<Id>) returns (ok: bool)
      requires Keyed(images, materials) && session in sessions
      requires sessions[session].job.Some? && sessions[session].batch.Some?
      requires Lists(drafts, session, listed) && listed != []
      requires |guideIds| == |listed| && NewGuides(guides, guideIds)
      modifies this
      ensures ok <==> DraftsReady(old(View()), session)
      ensures ok ==> AllValid(old(View()), session, listed)
      ensures ok ==> Reviewed(old(View()), View(), session, listed, guideIds)
      ensures !ok ==> View() == old(View())
    {
      hide Keyed, AllValid, Reviewed, NewGuides, DraftsReady;
      ValidIsReady(View(), session, listed);
      ok := DraftsValid(session, listed);
      if ok {
        CommitReview(session, listed, guideIds);
      }
    }

    /** The session ends with its first guide; its job, materials and batch are deleted. */
    method FinishSession(session: Id, guide: Id)
      requires session in sessions && sessions[session].job.Some? && sessions[session].batch.Some?
      modifies `sessions, `jobs, `materials, `batches
      ensures var n := old(sessions)[session];
              && sessions == old(sessions)[session := n.(
                   status := Ended, guide := Some(guide), job := None, batch := None, revision := n.revision + 1)]
              && jobs == old(jobs) - {n.job.value}
              && materials == WithoutBatch(old(materials), n.batch.value)
              && batches == old(batches) - {n.batch.value}
    {
      var n := sessions[session];
      sessions := sessions[session := n.(status := Ended, guide := Some(guide), job := None, batch := None,
                                         revision := n.revision + 1)];
      jobs := jobs - {n.job.value};
      materials := map m | m in materials && materials[m] != n.batch.value :: materials[m];
      batches := batches - {n.batch.value};
    }

    /** Completes a review exactly if the session is under review at the expected revision, the command names
        its whole draft set as it stands, and every draft is valid. */
    method CompleteGuideReview(session: Id, expected: int, command: seq<Expected>, listed: seq<Id>, guideIds: seq<Id>)
      returns (ok: bool)
      requires Keyed(images, materials) && Lists(drafts, session, listed)
      requires |guideIds| == |listed| && NewGuides(guides, guideIds)
      modifies this
      ensures ok <==> Reviewable(old(View()), session, expected) && NamesAll(command, old(drafts), session)
                      && DraftsReady(old(View()), session)
      ensures ok ==> AllValid(old(View()), session, listed)
      ensures ok ==> listed != [] && Reviewed(old(View()), View(), session, listed, guideIds)
      ensures !ok ==> View() == old(View())
    {
      hide Keyed, AllValid, Reviewed, NewGuides, DraftsReady;
      if session !in sessions || sessions[session].revision != expected || sessions[session].status != ReviewingGuide
         || sessions[session].batch.None? || sessions[session].job.None? {
        return false;
      }
      if sessions[session].batch.value !in batches || sessions[session].job.value !in jobs {
        return false;
      }
      ok := CheckDraftSet(command, drafts, session, listed);
      if ok {
        assert command[0].draft in listed;
        ok := PersistReviewedDrafts(session, listed, guideIds);
      }
    }
  }

  predicate Reviewable(t: Tables, session: Id, expected: int) {
    && session in t.sessions && t.sessions[session].revision == expected && t.sessions[session].status == ReviewingGuide
    && t.sessions[session].batch.Some? && t.sessions[session].job.Some?
    && t.sessions[session].batch.value in t.batches && t.sessions[session].job.value in t.jobs
  }

  /** The key of a material's image names the image. */
  ghost predicate Keyed(images: map<Id, Image>, materials: map<Id, Id>) {
    forall m :: m in materials ==> m in images && images[m].key.id == m
  }

  function AllowedImages(t: Tables, session: Id): set<Id>
    requires session in t.sessions
  {
    set a | a in t.images && MayUse(t, session, a)
  }

  ghost predicate AllValid(t: Tables, session: Id, listed: seq<Id>) {
    session in t.sessions &&
    forall i :: 0 <= i < |listed| ==>
      && listed[i] in t.drafts
      && ValidContent(t.drafts[listed[i]].title, t.drafts[listed[i]].steps, AllowedImages(t, session))
  }

  lemma MayUseIsShowable(t: Tables, session: Id, a: Id)
    requires session in t.sessions
    ensures a in AllowedImages(t, session) <==> Showable(t, session, a)
  {
  }

  lemma ContentIsReady(t: Tables, session: Id, d: Draft)
    requires session in t.sessions
    ensures ValidContent(d.title, d.steps, AllowedImages(t, session)) <==> DraftReady(t, session, d)
  {
    hide Entities.Blank, AllowedImages, Showable;
    forall i | 0 <= i < |d.steps|
      ensures d.steps[i].artifact in AllowedImages(t, session) <==> Showable(t, session, d.steps[i].artifact)
    {
      MayUseIsShowable(t, session, d.steps[i].artifact);
    }
    if ValidContent(d.title, d.steps, AllowedImages(t, session)) {
      forall i | 0 <= i < |d.steps| ensures ValidStep(d.steps[i], i, AllowedImages(t, session)) {
      }
    }
  }

  /** The check against the listed images accepts exactly the sessions whose drafts are ready. */
  lemma ValidIsReady(t: Tables, session: Id, listed: seq<Id>)
    requires session in t.sessions && Lists(t.drafts, session, listed)
    ensures AllValid(t, session, listed) <==> DraftsReady(t, session)
  {
    hide AllowedImages, ValidContent, DraftReady;
    forall d | d in t.drafts && t.drafts[d].session == session
      ensures ValidContent(t.drafts[d].title, t.drafts[d].steps, AllowedImages(t, session))
              <==> DraftReady(t, session, t.drafts[d])
    {
      ContentIsReady(t, session, t.drafts[d]);
    }
    if AllValid(t, session, listed) {
      forall d | d in t.drafts && t.drafts[d].session == session ensures DraftReady(t, session, t.drafts[d]) {
        var i :| 0 <= i < |listed| && listed[i] == d;
      }
    }
    if DraftsReady(t, session) {
      forall i | 0 <= i < |listed|
        ensures listed[i] in t.drafts
                && ValidContent(t.drafts[listed[i]].title, t.drafts[listed[i]].steps, AllowedImages(t, session))
      {
        assert listed[i] in listed;
      }
    }
  }

  lemma PromotedKeys(images: map<Id, Image>, used: set<Id>)
    ensures Promoted(images, used).Keys == images.Keys
    ensures forall a :: a in images ==> Promoted(images, used)[a].key == images[a].key
  {
  }

  ghost predicate NewGuides(guides: map<Id, Guide>, ids: seq<Id>) {
    && (forall i :: 0 <= i < |ids| ==> ids[i] !in guides)
    && (forall i, j :: 0 <= i < j < |ids| ==> ids[i] != ids[j])
  }

  lemma PromotedNone(images: map<Id, Image>)
    ensures Promoted(images, {}) == images
  {
  }

  lemma NothingSaved(drafts: map<Id, Draft>, guides: map<Id, Guide>, user: Id, listed: seq<Id>, guideIds: seq<Id>)
    requires |listed| == |guideIds|
    ensures SavedAs(drafts, drafts, listed, guideIds, 0) && GuidesFrom(guides, guides, drafts, user, listed, guideIds, 0)
  {
  }

  lemma SaveNextDraft(drafts: map<Id, Draft>, drafts': map<Id, Draft>, listed: seq<Id>, guideIds: seq<Id>, i: nat)
    requires |guideIds| == |listed| && i < |listed| && SavedAs(drafts, drafts', listed, guideIds, i)
    requires listed[i] in drafts && forall j, k :: 0 <= j < k < |listed| ==> listed[j] != listed[k]
    ensures listed[i] in drafts' && drafts'[listed[i]] == drafts[listed[i]]
    ensures SavedAs(drafts, drafts'[listed[i] := SavedDraft(drafts[listed[i]], guideIds[i])], listed, guideIds, i + 1)
  {
    hide SavedDraft;
  }

  lemma CreateNextGuide(
      guides: map<Id, Guide>, guides': map<Id, Guide>, drafts: map<Id, Draft>, user: Id, listed: seq<Id>,
      guideIds: seq<Id>, i: nat)
    requires |guideIds| == |listed| && i < |listed| && GuidesFrom(guides, guides', drafts, user, listed, guideIds, i)
    requires listed[i] in drafts && NewGuides(guides, guideIds)
    ensures guideIds[i] !in guides'
    ensures GuidesFrom(guides, guides'[guideIds[i] := GuideOf(user, drafts[listed[i]])], drafts, user, listed,
                       guideIds, i + 1)
  {
    hide GuideOf;
  }

  lemma QueuedGrows(tasks: map<Key, Option<Id>>, images: map<Id, Image>, done: set<Id>, a: Id)
    requires a in images && images[a].key.id == a
    ensures var queued := Queued(tasks, images, done);
            Queued(tasks, images, done + {a}) == if images[a].key in queued then queued else queued[images[a].key := Some(a)]
  {
    assert KeysOf(images, done + {a}) == KeysOf(images, done) + {images[a].key};
  }

  lemma StepImagesGrow(steps: seq<GuideStep>, i: nat)
    requires i < |steps|
    ensures StepImages(steps[..i + 1]) == StepImages(steps[..i]) + {steps[i].artifact}
  {
    var next, before := steps[..i + 1], steps[..i];
    forall a | a in StepImages(before) ensures a in StepImages(next) {
      var k :| 0 <= k < |before| && before[k].artifact == a;
      assert next[k] == before[k];
    }
    assert next[i] == steps[i];
    forall a | a in StepImages(next) ensures a in StepImages(before) + {steps[i].artifact} {
      var k :| 0 <= k < |next| && next[k].artifact == a;
      assert k < i ==> before[k] == next[k];
    }
  }

  lemma PromotedGrows(base: map<Id, Image>, seen: set<Id>, a: Id)
    requires a !in seen
    ensures var images := Promoted(base, seen);
            Promoted(base, seen + {a})
            == if a in images && images[a].purpose == Entities.GuideMaterial
               then images[a := images[a].(purpose := Entities.GuideStep, revision := images[a].revision + 1)] else images
  {
  }

  // -------------------------------------------------------------------------------- conservation

  lemma {:induction false} UsedIsAllowed(t: Tables, session: Id, listed: seq<Id>, a: Id)
    requires AllValid(t, session, listed)
    requires a in UsedBy(t.drafts, listed)
    ensures session in t.sessions && a in t.images && MayUse(t, session, a)
    decreases |listed|
  {
    var n := |listed| - 1;
    if listed[n] in t.drafts && a in StepImages(t.drafts[listed[n]].steps) {
      var steps := t.drafts[listed[n]].steps;
      var i :| 0 <= i < |steps| && steps[i].artifact == a;
      assert ValidStep(steps[i], i, AllowedImages(t, session));
    } else {
      UsedIsAllowed(t, session, listed[..n], a);
    }
  }

  lemma {:induction false} StepIsUsed(drafts: map<Id, Draft>, listed: seq<Id>, i: nat, a: Id)
    requires i < |listed| && listed[i] in drafts && a in StepImages(drafts[listed[i]].steps)
    ensures a in UsedBy(drafts, listed)
    decreases |listed|
  {
    var n := |listed| - 1;
    if i < n {
      assert listed[..n][i] == listed[i];
      StepIsUsed(drafts, listed[..n], i, a);
    }
  }

  /** Each material of the session is either used and promoted, with no deletion reserved, or unused and
      reserved for deletion: never both, never neither. */
  lemma MaterialsConserved(t: Tables, t': Tables, session: Id, listed: seq<Id>, m: Id)
    requires t.Valid() && AllValid(t, session, listed) && ImagesKept(t, t', session, listed)
    requires m in MaterialsOf(t, session)
    ensures m in t'.images
    ensures m in UsedBy(t.drafts, listed) <==> t'.images[m].purpose == Entities.GuideStep
    ensures m in UsedBy(t.drafts, listed) <==> t'.images[m].key !in t'.tasks
    ensures m in UsedBy(t.drafts, listed) ==>
              t'.images[m] == t.images[m].(purpose := Entities.GuideStep, revision := t.images[m].revision + 1)
    ensures m !in UsedBy(t.drafts, listed) ==> t'.images[m] == t.images[m] && t'.tasks[t'.images[m].key] == Some(m)
  {
    var used := UsedBy(t.drafts, listed);
    hide AllValid, UsedBy;
    if m in used {
      UsedIsAllowed(t, session, listed, m);
      KeyUnqueued(t, t', session, used, m);
    } else {
      assert t'.images[m].key in KeysOf(t'.images, MaterialsOf(t, session) - used);
    }
  }

  /** Only keys of unused materials are queued. */
  lemma KeyUnqueued(t: Tables, t': Tables, session: Id, used: set<Id>, a: Id)
    requires t.Valid() && session in t.sessions && MayUse(t, session, a)
    requires a in used && t'.images == Promoted(t.images, used)
    requires t'.tasks == Queued(t.tasks, t'.images, MaterialsOf(t, session) - used)
    ensures a in t'.images && t'.images[a].key !in t'.tasks
  {
    forall b | b in MaterialsOf(t, session) - used && b in t'.images ensures t'.images[b].key != t'.images[a].key {
      assert t'.images[b].key.id == b && t'.images[a].key.id == a;
    }
    assert t.images[a].key !in t.tasks;
  }

  /** The initial screenshot is neither promoted nor queued. */
  lemma ScreenshotUntouched(t: Tables, t': Tables, session: Id, listed: seq<Id>)
    requires t.Valid() && session in t.sessions && ImagesKept(t, t', session, listed)
    ensures var a := t.sessions[session].screenshot;
            && a in t.images && a in t'.images && t'.images[a] == t.images[a]
            && (t.images[a].key in t'.tasks <==> t.images[a].key in t.tasks)
  {
    var a := t.sessions[session].screenshot;
    hide UsedBy;
    forall b | b in t.materials ensures t'.images[b].key != t.images[a].key {
      assert t'.images[b].key.id == b && t.images[a].key.id == a;
    }
  }

  /** No step of a reviewed draft, which is a step of its guide, points at an image that is gone or reserved. */
  lemma StepsKeepTheirImages(t: Tables, t': Tables, session: Id, listed: seq<Id>, i: nat, j: nat)
    requires t.Valid() && AllValid(t, session, listed) && ImagesKept(t, t', session, listed)
    requires i < |listed| && j < |t.drafts[listed[i]].steps|
    ensures var a := t.drafts[listed[i]].steps[j].artifact;
            a in t'.images && t'.images[a].key !in t'.tasks && t'.images[a].purpose != Entities.GuideMaterial
  {
    var a := t.drafts[listed[i]].steps[j].artifact;
    assert listed[i] in t.drafts && a in StepImages(t.drafts[listed[i]].steps);
    hide AllValid;
    StepIsUsed(t.drafts, listed, i, a);
    UsedIsAllowed(t, session, listed, a);
    KeyUnqueued(t, t', session, UsedBy(t.drafts, listed), a);
  }

  /** The guides match the drafts one to one in order, every saved draft names its guide, the session ends with
      the first guide, and nothing of the session's job, batch or materials is left. */
  lemma GuidesMatchDrafts(t: Tables, t': Tables, session: Id, listed: seq<Id>, guideIds: seq<Id>)
    requires Reviewed(t, t', session, listed, guideIds) && NewGuides(t.guides, guideIds)
    requires t.sessions[session].batch.value in t.batches && t.batches[t.sessions[session].batch.value] == session
    requires forall b :: b in t.batches && t.batches[b] == session ==> b == t.sessions[session].batch.value
    ensures t'.guides.Keys - t.guides.Keys == set i | 0 <= i < |listed| :: guideIds[i]
    ensures forall i :: 0 <= i < |listed| ==>
              && t'.drafts[listed[i]].status == Saved && t'.drafts[listed[i]].guide == Some(guideIds[i])
              && t'.drafts[listed[i]].revision == t.drafts[listed[i]].revision + 1
              && t'.guides[guideIds[i]].title == t.drafts[listed[i]].title
              && t'.guides[guideIds[i]].steps == t.drafts[listed[i]].steps
    ensures t'.sessions[session].status == Ended && t'.sessions[session].guide == Some(guideIds[0])
    ensures MaterialsOf(t', session) == {} && t.sessions[session].job.value !in t'.jobs
  {
    hide Promoted, Queued, UsedBy;
    var new_ := set i | 0 <= i < |listed| :: guideIds[i];
    forall g ensures g in t'.guides.Keys - t.guides.Keys <==> g in new_ {
    }
  }

  /** The images of everyone else stay as they are, and so do tasks that were there; new tasks are for the
      session's own materials only. */
  lemma OtherImagesUntouched(t: Tables, t': Tables, session: Id, listed: seq<Id>)
    requires t.Valid() && AllValid(t, session, listed) && ImagesKept(t, t', session, listed)
    ensures forall a :: a in t.images && a !in MaterialsOf(t, session) ==> a in t'.images && t'.images[a] == t.images[a]
    ensures forall k :: k in t.tasks ==> k in t'.tasks && t'.tasks[k] == t.tasks[k]
    ensures forall k :: k in t'.tasks && k !in t.tasks ==> k.id in MaterialsOf(t, session) && t'.tasks[k] == Some(k.id)
  {
    var used := UsedBy(t.drafts, listed);
    hide AllValid, UsedBy, MaterialsOf;
    forall a | a in t.images && a in used && t.images[a].purpose == Entities.GuideMaterial
      ensures a in MaterialsOf(t, session)
    {
      UsedIsAllowed(t, session, listed, a);
    }
    forall k | k in t'.tasks && k !in t.tasks ensures k.id in MaterialsOf(t, session) && t'.tasks[k] == Some(k.id) {
      var a :| a in MaterialsOf(t, session) - used && a in t'.images && t'.images[a].key == k;
      assert t'.images[a].key == t.images[a].key;
    }
  }

  lemma OtherDraftsUntouched(
      drafts: map<Id, Draft>, drafts': map<Id, Draft>, session: Id, listed: seq<Id>, guideIds: seq<Id>)
    requires |listed| == |guideIds| && SavedAs(drafts, drafts', listed, guideIds, |listed|) && Lists(drafts, session, listed)
    ensures forall d :: d in drafts && drafts[d].session != session ==> d in drafts' && drafts'[d] == drafts[d]
  {
    hide SavedDraft;
    assert forall i :: 0 <= i < |listed| ==> listed[i] in listed;
  }

  /** Nothing of another session changes: its row, its drafts, its materials, its batches and its job; and no guide
      that was there. */
  lemma OthersUntouched(t: Tables, t': Tables, session: Id, listed: seq<Id>, guideIds: seq<Id>)
    requires Reviewed(t, t', session, listed, guideIds) && Lists(t.drafts, session, listed)
    ensures t'.sessions - {session} == t.sessions - {session}
    ensures forall d :: d in t.drafts && t.drafts[d].session != session ==> d in t'.drafts && t'.drafts[d] == t.drafts[d]
    ensures var batch := t.sessions[session].batch.value;
            && t'.batches == t.batches - {batch}
            && forall m :: m in t.materials && t.materials[m] != batch ==> m in t'.materials && t'.materials[m] == t.materials[m]
    ensures t'.jobs == t.jobs - {t.sessions[session].job.value}
    ensures forall g :: g in t.guides ==> g in t'.guides && t'.guides[g] == t.guides[g]
  {
    hide ImagesKept, SavedAs, GuideOf;
    OtherDraftsUntouched(t.drafts, t'.drafts, session, listed, guideIds);
    hide Lists;
  }
}
