/**
 * The result list a continuous speech-recognition engine hands to `onresult`, and the loop
 * that every revision of the conversation screen runs over it: starting at `resultIndex`,
 * it concatenates the final segments into one string and the interim segments into another.
 */
module Recognition {

  /** One entry of `event.results`: its best alternative's transcript and whether it is final. */
  datatype SpeechResult = SpeechResult(transcript: string, isFinal: bool)

  /** The transcripts of the results whose finality is `final`, concatenated in order. */
  function Collected(rs: seq<SpeechResult>, final: bool): string {
    if rs == [] then ""
    else Collected(rs[..|rs| - 1], final) + Part(rs[|rs| - 1], final)
  }

  /** What one result contributes to the string of the given finality. */
  function Part(r: SpeechResult, final: bool): string {
    if r.isFinal == final then r.transcript else ""
  }

  /** The final text of an `onresult` event: final segments from `resultIndex` on. */
  function FinalText(results: seq<SpeechResult>, resultIndex: nat): string {
    if resultIndex <= |results| then Collected(results[resultIndex..], true) else ""
  }

  /** The interim text of an `onresult` event: interim segments from `resultIndex` on. */
  function InterimText(results: seq<SpeechResult>, resultIndex: nat): string {
    if resultIndex <= |results| then Collected(results[resultIndex..], false) else ""
  }

  /** Collecting distributes over concatenation of result lists. */
  lemma {:induction false} CollectedAppend(a: seq<SpeechResult>, b: seq<SpeechResult>, final: bool)
    ensures Collected(a + b, final) == Collected(a, final) + Collected(b, final)
    decreases |b|
  {
    if b == [] {
      assert a + b == a;
    } else {
      var b' := b[..|b| - 1];
      var ab := a + b;
      assert ab[..|ab| - 1] == a + b';
      assert ab[|ab| - 1] == b[|b| - 1];
      CollectedAppend(a, b', final);
      assert Collected(ab, final) == Collected(a + b', final) + Part(b[|b| - 1], final);
    }
  }

  /** The string of a finality is empty exactly when every result of that finality has an empty transcript. */
  lemma {:induction false} CollectedEmptyIff(rs: seq<SpeechResult>, final: bool)
    ensures Collected(rs, final) == "" <==>
      forall k :: 0 <= k < |rs| && rs[k].isFinal == final ==> rs[k].transcript == ""
  {
    if rs != [] {
      var init := rs[..|rs| - 1];
      CollectedEmptyIff(init, final);
      assert forall k :: 0 <= k < |init| ==> init[k] == rs[k];
    }
  }

  /** Every transcript of the list, final or not, concatenated in order. */
  function AllText(rs: seq<SpeechResult>): string {
    if rs == [] then "" else AllText(rs[..|rs| - 1]) + rs[|rs| - 1].transcript
  }

  /**
   * Every character of every result goes to exactly one of the two strings: together they
   * hold each character of all the transcripts exactly as often as the transcripts do.
   */
  lemma {:induction false} CollectedPartition(rs: seq<SpeechResult>)
    ensures multiset(Collected(rs, true)) + multiset(Collected(rs, false)) == multiset(AllText(rs))
    ensures |Collected(rs, true)| + |Collected(rs, false)| == |AllText(rs)|
  {
    if rs != [] {
      var init, last := rs[..|rs| - 1], rs[|rs| - 1];
      CollectedPartition(init);
      assert multiset(Part(last, true)) + multiset(Part(last, false)) == multiset(last.transcript);
    }
  }

  /**
   * The `for (let i = event.resultIndex; i < event.results.length; i++)` loop of `onresult`:
   * returns the final and the interim text of the event.
   */
  method Collect(results: seq<SpeechResult>, resultIndex: nat) returns (final: string, interim: string)
    ensures final == FinalText(results, resultIndex)
    ensures interim == InterimText(results, resultIndex)
  {
    final, interim := "", "";
    if resultIndex > |results| {
      return;
    }
    var i := resultIndex;
    while i < |results|
      invariant resultIndex <= i <= |results|
      invariant final == Collected(results[resultIndex..i], true)
      invariant interim == Collected(results[resultIndex..i], false)
    {
      ghost var next := results[resultIndex..i + 1];
      assert next[..|next| - 1] == results[resultIndex..i] && next[|next| - 1] == results[i];
      if results[i].isFinal {
        final := final + results[i].transcript;
      } else {
        interim := interim + results[i].transcript;
      }
      i := i + 1;
    }
    assert results[resultIndex..i] == results[resultIndex..];
  }
}
