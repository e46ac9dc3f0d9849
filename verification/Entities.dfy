/** Artifacts and support requests: their validation, and the stored JSON responses that a replay of a
    completed command reads back. */
module Entities {
  import opened Common

  const ZERO_TIME: Time := -62_135_596_800 * SECOND
  const MAX_ARTIFACT_BYTES := 10 * 1024 * 1024
  const MAX_COMMENT_RUNES := 500

  // ------------------------------------------------------------------------------------- text

  predicate IsSpace(c: char) {
    || c in {'\t', '\n', '\U{000B}', '\U{000C}', '\r', ' ', '\U{0085}', '\U{00A0}', '\U{1680}'}
    || '\U{2000}' <= c <= '\U{200A}'
    || c in {'\U{2028}', '\U{2029}', '\U{202F}', '\U{205F}', '\U{3000}'}
  }

  predicate Blank(s: string) {
    forall i :: 0 <= i < |s| ==> IsSpace(s[i])
  }

  predicate ValidId(id: Id) {
    !Blank(id)
  }

  predicate ValidText(s: string, minRunes: nat, maxRunes: nat, required: bool) {
    (required ==> !Blank(s)) && minRunes <= |s| <= maxRunes
  }

  predicate ValidHash(s: string) {
    |s| == 64 && forall i :: 0 <= i < |s| ==> '0' <= s[i] <= '9' || 'a' <= s[i] <= 'f'
  }

  // -------------------------------------------------------------------------------- artifacts

  datatype Purpose = RequestScreenshot | GuideMaterial | GuideStep

  /** A decoded upload: its bytes, their digest and the dimensions found in them. */
  datatype Picture = Picture(bytes: seq<bv8>, sha256: string, width: int, height: int)

  /** The object's name in storage. */
  datatype Key = Key(owner: Id, id: Id)
  {
    function Text(): string { owner + "/" + id + ".jpg" }
  }

  predicate NoSlash(id: Id) { forall i :: 0 <= i < |id| ==> id[i] != '/' }

  /** In a name made from a slash-free ID the owner ends at the last slash. */
  lemma LastSlash(k: Key)
    requires NoSlash(k.id)
    ensures k.Text()[|k.owner|] == '/'
    ensures forall i :: |k.owner| < i < |k.Text()| ==> k.Text()[i] != '/'
    ensures k.owner == k.Text()[..|k.owner|] && k.id == k.Text()[|k.owner| + 1..|k.Text()| - 4]
  {
    assert k.Text() == k.owner + (['/'] + (k.id + ".jpg"));
  }

  /** Names of objects with generated (slash-free) artifact IDs are equal only if owner and ID are. */
  lemma StorageKeyInjective(a: Key, b: Key)
    requires NoSlash(a.id) && NoSlash(b.id)
    ensures a.Text() == b.Text() ==> a == b
  {
    LastSlash(a);
    LastSlash(b);
  }

  datatype Artifact = Artifact(
    id: Id, owner: Id, purpose: Purpose, mimeType: string, storageKey: Key, sha256: string, byteSize: int,
    width: int, height: int, capturedAt: Time, createdAt: Time, updatedAt: Time, revision: int)
  {
    predicate Valid() {
      && ValidId(id) && ValidId(owner)
      && mimeType == "image/jpeg"
      && storageKey == Key(owner, id)
      && ValidHash(sha256)
      && 1 <= byteSize <= MAX_ARTIFACT_BYTES
      && 1 <= width && 1 <= height
      && capturedAt != ZERO_TIME && createdAt != ZERO_TIME && updatedAt != ZERO_TIME
      && createdAt <= updatedAt
      && 1 <= revision
    }
  }

  // ------------------------------------------------------------------------- support requests

  datatype RequestStatus = Pending | InSupport | Resolved | Cancelled

  datatype Acknowledgement = Now | Scheduled | Unknown

  datatype GuideContext = GuideContext(
    guideRun: Id, guide: Id, guideVersion: int, stepNumber: int, guideTitle: string, stepInstruction: string,
    stepArtifact: Id)
  {
    predicate Valid() {
      && ValidId(guideRun) && ValidId(guide) && ValidId(stepArtifact)
      && 1 <= guideVersion && 1 <= stepNumber
      && ValidText(guideTitle, 1, 40, true) && ValidText(stepInstruction, 1, 120, true)
    }
  }

  datatype SupportRequest = SupportRequest(
    id: Id, user: Id, family: Id, screenshot: Id, comment: string, status: RequestStatus,
    session: Option<Id>, context: Option<GuideContext>, acknowledgedAt: Option<Time>,
    acknowledgement: Option<Acknowledgement>, estimatedSupportAt: Option<Time>,
    createdAt: Time, updatedAt: Time, revision: int)
  {
    predicate Valid() {
      && ValidId(id) && ValidId(user) && ValidId(family) && ValidId(screenshot)
      && user != family
      && '\0' !in comment && ValidText(comment, 0, MAX_COMMENT_RUNES, false)
      && (session.Some? ==> ValidId(session.value))
      && (context.Some? ==> context.value.Valid())
      && (if acknowledgedAt.None? then acknowledgement.None? && estimatedSupportAt.None?
          else acknowledgement.Some? && (acknowledgement.value == Scheduled <==> estimatedSupportAt.Some?))
      && (status == Cancelled ==> session.None?)
      && createdAt != ZERO_TIME && updatedAt != ZERO_TIME && createdAt <= updatedAt
      && 1 <= revision
    }
  }

  // --------------------------------------------------------------------------- stored responses
  //
  // encoding/json is taken to read back exactly the members it wrote, so a stored response is
  // represented by the structure it was marshalled from.

  /** The artifact as it is answered: the storage key stays on the server, a content URL is added. */
  datatype ArtifactJson = ArtifactJson(
    id: string, ownerUserId: string, purpose: string, mimeType: string, sha256: string, byteSize: int,
    width: int, height: int, capturedAt: Time, contentUrl: string, createdAt: Time, updatedAt: Time,
    revision: int)

  datatype SupportRequestJson = SupportRequestJson(
    id: string, userId: string, familyId: string, initialScreenshotArtifactId: string, comment: string,
    status: string, supportSessionId: Option<string>, guideContext: Option<GuideContext>,
    acknowledgedAt: Option<Time>, acknowledgementKind: Option<string>, estimatedSupportAt: Option<Time>,
    createdAt: Time, updatedAt: Time, revision: int)

  function PurposeText(p: Purpose): string {
    match p
    case RequestScreenshot => "REQUEST_SCREENSHOT"
    case GuideMaterial => "GUIDE_MATERIAL"
    case GuideStep => "GUIDE_STEP"
  }

  function ParsePurpose(s: string): Option<Purpose> {
    if s == "REQUEST_SCREENSHOT" then Some(RequestScreenshot)
    else if s == "GUIDE_MATERIAL" then Some(GuideMaterial)
    else if s == "GUIDE_STEP" then Some(GuideStep)
    else None
  }

  function StatusText(s: RequestStatus): string {
    match s
    case Pending => "PENDING"
    case InSupport => "IN_SUPPORT"
    case Resolved => "RESOLVED"
    case Cancelled => "CANCELLED"
  }

  function ParseStatus(s: string): Option<RequestStatus> {
    if s == "PENDING" then Some(Pending)
    else if s == "IN_SUPPORT" then Some(InSupport)
    else if s == "RESOLVED" then Some(Resolved)
    else if s == "CANCELLED" then Some(Cancelled)
    else None
  }

  function KindText(k: Acknowledgement): string {
    match k
    case Now => "NOW"
    case Scheduled => "SCHEDULED"
    case Unknown => "UNKNOWN"
  }

  function ParseKind(s: string): Option<Acknowledgement> {
    if s == "NOW" then Some(Now)
    else if s == "SCHEDULED" then Some(Scheduled)
    else if s == "UNKNOWN" then Some(Unknown)
    else None
  }

  function EncodeArtifact(a: Artifact): ArtifactJson {
    ArtifactJson(a.id, a.owner, PurposeText(a.purpose), a.mimeType, a.sha256, a.byteSize, a.width, a.height,
                 a.capturedAt, "/v1/artifacts/" + a.id + "/content", a.createdAt, a.updatedAt, a.revision)
  }

  /** The artifact a replay rebuilds from a stored response, if it passes validation. */
  function DecodeArtifact(d: ArtifactJson): Option<Artifact> {
    var purpose := ParsePurpose(d.purpose);
    if purpose.None? then None else
    var a := Artifact(d.id, d.ownerUserId, purpose.value, d.mimeType, Key(d.ownerUserId, d.id), d.sha256,
                      d.byteSize, d.width, d.height, d.capturedAt, d.createdAt, d.updatedAt, d.revision);
    if a.Valid() then Some(a) else None
  }

  function EncodeRequest(r: SupportRequest): SupportRequestJson {
    SupportRequestJson(
      r.id, r.user, r.family, r.screenshot, r.comment, StatusText(r.status), r.session, r.context,
      r.acknowledgedAt, if r.acknowledgement.None? then None else Some(KindText(r.acknowledgement.value)),
      r.estimatedSupportAt, r.createdAt, r.updatedAt, r.revision)
  }

  function DecodeRequest(d: SupportRequestJson): Option<SupportRequest> {
    var status := ParseStatus(d.status);
    var kind := if d.acknowledgementKind.None? then None else ParseKind(d.acknowledgementKind.value);
    if status.None? || (kind.None? && d.acknowledgementKind.Some?) then None else
    var r := SupportRequest(
      d.id, d.userId, d.familyId, d.initialScreenshotArtifactId, d.comment, status.value, d.supportSessionId,
      d.guideContext, d.acknowledgedAt, kind, d.estimatedSupportAt, d.createdAt, d.updatedAt, d.revision);
    if r.Valid() then Some(r) else None
  }

  // -------------------------------------------------------------------------------- round trips

  lemma TextsParse(p: Purpose, s: RequestStatus, k: Acknowledgement)
    ensures ParsePurpose(PurposeText(p)) == Some(p)
    ensures ParseStatus(StatusText(s)) == Some(s)
    ensures ParseKind(KindText(k)) == Some(k)
  {
  }

  /** Replaying a stored artifact gives back the artifact itself, storage key included. */
  lemma ArtifactReplay(a: Artifact)
    requires a.Valid()
    ensures DecodeArtifact(EncodeArtifact(a)) == Some(a)
  {
    TextsParse(a.purpose, Pending, Now);
  }

  /** Replaying a stored support request gives back the request, whichever optional members it has. */
  lemma RequestReplay(r: SupportRequest)
    requires r.Valid()
    ensures DecodeRequest(EncodeRequest(r)) == Some(r)
  {
    TextsParse(GuideStep, r.status, if r.acknowledgement.Some? then r.acknowledgement.value else Now);
  }
}
