/** The speech recogniser's `onresult` handler: it walks the event's results from
    `resultIndex` on, gathering final and interim text separately, and the live
    transcript is the trimmed `final + ' ' + interim`. */
module Transcript {
  import opened Js

  /** One recognition result: whether it is final, and the transcript of its first alternative. */
  datatype RecognitionResult = RecognitionResult(isFinal: bool, transcript: string)

  /** The transcripts of the final results, concatenated in result order. */
  function Finals(rs: seq<RecognitionResult>): string {
    if rs == [] then ""
    else Finals(rs[..|rs| - 1]) + (if rs[|rs| - 1].isFinal then rs[|rs| - 1].transcript else "")
  }

  /** The transcripts of the interim results, concatenated in result order. */
  function Interims(rs: seq<RecognitionResult>): string {
    if rs == [] then ""
    else Interims(rs[..|rs| - 1]) + (if rs[|rs| - 1].isFinal then "" else rs[|rs| - 1].transcript)
  }

  /** Every transcript, final or not, in result order. */
  function AllText(rs: seq<RecognitionResult>): string {
    if rs == [] then "" else rs[0].transcript + AllText(rs[1..])
  }

  /** The results the handler looks at: those from `resultIndex` on. */
  function Fresh(results: seq<RecognitionResult>, resultIndex: nat): seq<RecognitionResult> {
    if resultIndex <= |results| then results[resultIndex..] else []
  }

  /** The transcript the handler stores and shows. */
  function Composed(results: seq<RecognitionResult>, resultIndex: nat): string {
    var seen := Fresh(results, resultIndex);
    Trim(Finals(seen) + " " + Interims(seen))
  }

  /** The `onresult` loop. */
  method Compose(results: seq<RecognitionResult>, resultIndex: nat) returns (text: string)
    ensures text == Composed(results, resultIndex)
  {
    var interim := "";
    var final := "";
    var i := resultIndex;
    while i < |results|
      invariant resultIndex <= i
      invariant resultIndex <= |results| ==> i <= |results|
      invariant final == Finals(if i <= |results| then results[resultIndex..i] else [])
      invariant interim == Interims(if i <= |results| then results[resultIndex..i] else [])
    {
      var res := results[i];
      assert results[resultIndex..i + 1][..i - resultIndex] == results[resultIndex..i];
      if res.isFinal {
        final := final + res.transcript;
      } else {
        interim := interim + res.transcript;
      }
      i := i + 1;
    }
    if resultIndex <= |results| {
      assert results[resultIndex..i] == results[resultIndex..];
    }
    text := Trim(final + " " + interim);
  }

  /** The final results, in result order. */
  function FinalResults(rs: seq<RecognitionResult>): seq<RecognitionResult> {
    if rs == [] then []
    else FinalResults(rs[..|rs| - 1]) + (if rs[|rs| - 1].isFinal then [rs[|rs| - 1]] else [])
  }

  /** The interim results, in result order. */
  function InterimResults(rs: seq<RecognitionResult>): seq<RecognitionResult> {
    if rs == [] then []
    else InterimResults(rs[..|rs| - 1]) + (if rs[|rs| - 1].isFinal then [] else [rs[|rs| - 1]])
  }

  /** The final and the interim results together are all the results, none counted twice. */
  lemma {:induction false} ResultsPartition(rs: seq<RecognitionResult>)
    ensures forall r :: r in FinalResults(rs) ==> r.isFinal
    ensures forall r :: r in InterimResults(rs) ==> !r.isFinal
    ensures multiset(FinalResults(rs)) + multiset(InterimResults(rs)) == multiset(rs)
  {
    if rs != [] {
      var p, last := rs[..|rs| - 1], rs[|rs| - 1];
      ResultsPartition(p);
      assert p + [last] == rs;
      if last.isFinal {
        assert FinalResults(rs) == FinalResults(p) + [last];
        assert InterimResults(rs) == InterimResults(p);
      } else {
        assert FinalResults(rs) == FinalResults(p);
        assert InterimResults(rs) == InterimResults(p) + [last];
      }
    }
  }

  /** Final and interim text split the results between them: the final text is the text of
      exactly the final results and the interim text that of exactly the others, each in
      result order, and together the two groups are all the results, none counted twice. */
  lemma {:induction false} SplitConservesText(rs: seq<RecognitionResult>)
    ensures Finals(rs) == AllText(FinalResults(rs))
    ensures Interims(rs) == AllText(InterimResults(rs))
    ensures forall r :: r in FinalResults(rs) ==> r.isFinal
    ensures forall r :: r in InterimResults(rs) ==> !r.isFinal
    ensures multiset(FinalResults(rs)) + multiset(InterimResults(rs)) == multiset(rs)
  {
    ResultsPartition(rs);
    if rs != [] {
      var p, last := rs[..|rs| - 1], rs[|rs| - 1];
      SplitConservesText(p);
      if last.isFinal {
        AllTextSnoc(FinalResults(p), last);
        assert InterimResults(rs) == InterimResults(p);
        assert Interims(rs) == Interims(p);
      } else {
        AllTextSnoc(InterimResults(p), last);
        assert FinalResults(rs) == FinalResults(p);
        assert Finals(rs) == Finals(p);
      }
    }
  }

  lemma {:induction false} AllTextSnoc(rs: seq<RecognitionResult>, r: RecognitionResult)
    ensures AllText(rs + [r]) == AllText(rs) + r.transcript
  {
    if rs == [] {
      assert AllText([r]) == r.transcript + AllText([]);
    } else {
      assert (rs + [r])[0] == rs[0];
      assert (rs + [r])[1..] == rs[1..] + [r];
      AllTextSnoc(rs[1..], r);
    }
  }

  /** When every result is final, the finals are the whole text and nothing is interim. */
  lemma {:induction false} AllFinal(rs: seq<RecognitionResult>)
    requires forall k :: 0 <= k < |rs| ==> rs[k].isFinal
    ensures Finals(rs) == AllText(rs)
    ensures Interims(rs) == ""
  {
    if rs != [] {
      var p := rs[..|rs| - 1];
      AllFinal(p);
      AllTextSnoc(p, rs[|rs| - 1]);
      assert p + [rs[|rs| - 1]] == rs;
    }
  }

  /** When no result is final, everything is interim. */
  lemma {:induction false} NoneFinal(rs: seq<RecognitionResult>)
    requires forall k :: 0 <= k < |rs| ==> !rs[k].isFinal
    ensures Interims(rs) == AllText(rs)
    ensures Finals(rs) == ""
  {
    if rs != [] {
      var p := rs[..|rs| - 1];
      NoneFinal(p);
      AllTextSnoc(p, rs[|rs| - 1]);
      assert p + [rs[|rs| - 1]] == rs;
    }
  }

  /** With only final results the stored transcript is their trimmed concatenation: the
      separating blank is trimmed away. */
  lemma ComposedAllFinal(results: seq<RecognitionResult>, resultIndex: nat)
    requires resultIndex <= |results|
    requires forall k :: resultIndex <= k < |results| ==> results[k].isFinal
    ensures Composed(results, resultIndex) == Trim(AllText(results[resultIndex..]))
  {
    var seen := results[resultIndex..];
    assert Fresh(results, resultIndex) == seen;
    AllFinal(seen);
    assert Finals(seen) + " " + Interims(seen) == AllText(seen) + " ";
    TrimSpaceSuffix(AllText(seen), " ");
  }

  /** With only interim results the stored transcript is their trimmed concatenation. */
  lemma ComposedNoneFinal(results: seq<RecognitionResult>, resultIndex: nat)
    requires resultIndex <= |results|
    requires forall k :: resultIndex <= k < |results| ==> !results[k].isFinal
    ensures Composed(results, resultIndex) == Trim(AllText(results[resultIndex..]))
  {
    var seen := results[resultIndex..];
    assert Fresh(results, resultIndex) == seen;
    NoneFinal(seen);
    assert Finals(seen) + " " + Interims(seen) == " " + AllText(seen);
    TrimSpacePrefix(" ", AllText(seen));
  }

  /** An event whose `resultIndex` is past the last result leaves an empty transcript. */
  lemma ComposedPastEnd(results: seq<RecognitionResult>, resultIndex: nat)
    requires resultIndex >= |results|
    ensures Composed(results, resultIndex) == ""
  {
    var seen := Fresh(results, resultIndex);
    assert seen == [];
    assert Finals(seen) + " " + Interims(seen) == " ";
    TrimEmptyIff(" ");
  }
}
