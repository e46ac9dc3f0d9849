/** Guide content as the domain checks it, for generated guides and for reviewed drafts alike. */
module Guides {
  import opened Common
  import Entities

  const MAX_STEPS := 8

  datatype GuideStep = GuideStep(position: int, artifact: Id, instruction: string)

  datatype GeneratedStep = GeneratedStep(source: Id, instruction: string)

  datatype GeneratedGuide = GeneratedGuide(title: string, steps: seq<GeneratedStep>)

  predicate ValidStep(step: GuideStep, index: nat, allowed: set<Id>) {
    && step.position == index + 1
    && Entities.ValidText(step.instruction, 1, 120, true)
    && step.artifact in allowed
  }

  /** One to eight steps, numbered from one without a gap, each with a text and an image that may be used. */
  predicate ValidContent(title: string, steps: seq<GuideStep>, allowed: set<Id>) {
    && Entities.ValidText(title, 1, 40, true)
    && 1 <= |steps| <= MAX_STEPS
    && forall i :: 0 <= i < |steps| ==> ValidStep(steps[i], i, allowed)
  }

  /** A generated guide's steps take their numbers from their places. */
  function Numbered(steps: seq<GeneratedStep>): (r: seq<GuideStep>)
    ensures |r| == |steps|
  {
    seq(|steps|, i requires 0 <= i < |steps| => GuideStep(i + 1, steps[i].source, steps[i].instruction))
  }

  predicate ValidGenerated(outputs: seq<GeneratedGuide>, allowed: set<Id>) {
    && outputs != []
    && forall i :: 0 <= i < |outputs| ==> ValidContent(outputs[i].title, Numbered(outputs[i].steps), allowed)
  }

  method ValidateGuideDraftContent(title: string, steps: seq<GuideStep>, allowed: set<Id>) returns (ok: bool)
    ensures ok <==> ValidContent(title, steps, allowed)
  {
    if !Entities.ValidText(title, 1, 40, true) || |steps| < 1 || |steps| > MAX_STEPS {
      return false;
    }
    for i := 0 to |steps|
      invariant forall j :: 0 <= j < i ==> ValidStep(steps[j], j, allowed)
    {
      if steps[i].position != i + 1 || !Entities.ValidText(steps[i].instruction, 1, 120, true)
         || steps[i].artifact !in allowed {
        assert !ValidStep(steps[i], i, allowed);
        return false;
      }
    }
    return true;
  }

  /** Appends one numbered step after the other. */
  method NumberSteps(steps: seq<GeneratedStep>) returns (r: seq<GuideStep>)
    ensures r == Numbered(steps)
    ensures |r| == |steps|
    ensures forall i :: 0 <= i < |steps| ==> r[i] == GuideStep(i + 1, steps[i].source, steps[i].instruction)
  {
    r := [];
    for i := 0 to |steps|
      invariant r == Numbered(steps)[..i]
    {
      r := r + [GuideStep(i + 1, steps[i].source, steps[i].instruction)];
    }
  }

  /** A title of up to forty characters, and one to eight steps, each with an instruction of up to 120 characters
      and an image that was given to the generator. */
  predicate Usable(output: GeneratedGuide, allowed: set<Id>) {
    && !Entities.Blank(output.title) && 1 <= |output.title| <= 40
    && 1 <= |output.steps| <= 8
    && forall i :: 0 <= i < |output.steps| ==>
         && !Entities.Blank(output.steps[i].instruction) && 1 <= |output.steps[i].instruction| <= 120
         && output.steps[i].source in allowed
  }

  /** The steps take their numbers from their places, so the numbers are never what is wrong. */
  lemma UsableIsValid(output: GeneratedGuide, allowed: set<Id>)
    ensures Usable(output, allowed) <==> ValidContent(output.title, Numbered(output.steps), allowed)
  {
    hide Entities.Blank;
    var steps := Numbered(output.steps);
    assert forall i :: 0 <= i < |steps| ==> steps[i] == GuideStep(i + 1, output.steps[i].source, output.steps[i].instruction);
    hide Numbered;
    if ValidContent(output.title, steps, allowed) {
      forall i | 0 <= i < |output.steps|
        ensures !Entities.Blank(output.steps[i].instruction) && 1 <= |output.steps[i].instruction| <= 120
                && output.steps[i].source in allowed
      {
        assert ValidStep(steps[i], i, allowed);
      }
    }
  }

  method ValidateGeneratedGuides(outputs: seq<GeneratedGuide>, allowed: set<Id>) returns (ok: bool)
    ensures ok <==> ValidGenerated(outputs, allowed)
    ensures ok <==> outputs != [] && forall i :: 0 <= i < |outputs| ==> Usable(outputs[i], allowed)
  {
    forall i | 0 <= i < |outputs|
      ensures Usable(outputs[i], allowed) <==> ValidContent(outputs[i].title, Numbered(outputs[i].steps), allowed)
    {
      UsableIsValid(outputs[i], allowed);
    }
    hide Usable, ValidContent;
    if |outputs| == 0 {
      return false;
    }
    for i := 0 to |outputs|
      invariant forall j :: 0 <= j < i ==> ValidContent(outputs[j].title, Numbered(outputs[j].steps), allowed)
    {
      var steps := NumberSteps(outputs[i].steps);
      var valid := ValidateGuideDraftContent(outputs[i].title, steps, allowed);
      if !valid {
        return false;
      }
    }
    return true;
  }
}
