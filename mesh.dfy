/** The mesh side of the startup viseme check and of the per-frame transfer:
    looking a blend shape up by name, the names reported missing, and the
    target index each sequencer weight goes to. */
module Mesh {
  import opened Diagnostics

  /** `Mesh.GetBlendShapeIndex(name)` over the mesh's blend-shape names, listed
      by index: the index of the first shape so named, or -1 if there is none. */
  function BlendShapeIndex(shapes: seq<string>, name: string): (index: int)
    ensures -1 <= index < |shapes|
    ensures index == -1 <==> name !in shapes
    ensures index >= 0 ==> shapes[index] == name && name !in shapes[..index]
  {
    if shapes == [] then -1
    else if shapes[0] == name then 0
    else
      var rest := BlendShapeIndex(shapes[1..], name);
      assert shapes[1..][..if rest < 0 then 0 else rest] == shapes[1..if rest < 0 then 1 else rest + 1];
      if rest == -1 then -1 else rest + 1
  }

  /** The reports the startup check writes while walking `needed` in order:
      one per name whose lookup gives -1. */
  function MissingReports(needed: seq<string>, shapes: seq<string>): (reports: seq<Report>)
    ensures |reports| <= |needed|
    ensures forall r :: r in reports ==> r.MissingBlendShape?
  {
    if needed == [] then []
    else
      var last := needed[|needed| - 1];
      MissingReports(needed[..|needed| - 1], shapes)
        + (if BlendShapeIndex(shapes, last) == -1 then [MissingBlendShape(last)] else [])
  }

  /** A name is reported exactly when it is needed and the mesh lacks it. */
  lemma {:induction false} ReportedIffMissing(needed: seq<string>, shapes: seq<string>, name: string)
    ensures MissingBlendShape(name) in MissingReports(needed, shapes) <==> name in needed && name !in shapes
  {
    if needed != [] {
      var init := needed[..|needed| - 1];
      ReportedIffMissing(init, shapes, name);
      assert needed == init + [needed[|needed| - 1]];
    }
  }

  /** The reports follow the order of the needed names: checking a list in two
      parts reports the first part's missing names, then the second's. */
  lemma {:induction false} ReportsFollowNeededOrder(first: seq<string>, second: seq<string>, shapes: seq<string>)
    ensures MissingReports(first + second, shapes) == MissingReports(first, shapes) + MissingReports(second, shapes)
  {
    if second == [] {
      assert first + second == first;
    } else {
      var init := second[..|second| - 1];
      ReportsFollowNeededOrder(first, init, shapes);
      assert (first + second)[..|first + second| - 1] == first + init;
    }
  }

  /** A single name is reported alone if it is missing, and nothing is reported otherwise. */
  lemma ReportsOfOneName(name: string, shapes: seq<string>)
    ensures MissingReports([name], shapes) == if name in shapes then [] else [MissingBlendShape(name)]
  {
  }

  /** The blend-shape index each sequencer weight is written to, frame after
      frame, found by looking its viseme name up again. */
  function FrameTargets(visemes: seq<string>, shapes: seq<string>): (targets: seq<int>)
    ensures |targets| == |visemes|
    ensures forall i :: 0 <= i < |visemes| ==>
              -1 <= targets[i] < |shapes| && (targets[i] >= 0 ==> shapes[targets[i]] == visemes[i])
  {
    seq(|visemes|, i requires 0 <= i < |visemes| => BlendShapeIndex(shapes, visemes[i]))
  }

  /** The per-frame transfer hands index -1 to exactly the visemes that the
      startup check reported missing. */
  lemma ReportedExactlyWhenUntargeted(visemes: seq<string>, shapes: seq<string>, i: nat)
    requires i < |visemes|
    ensures MissingBlendShape(visemes[i]) in MissingReports(visemes, shapes) <==> FrameTargets(visemes, shapes)[i] == -1
  {
    ReportedIffMissing(visemes, shapes, visemes[i]);
  }
}
