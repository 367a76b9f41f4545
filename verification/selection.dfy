/**
 * Sample selection of the BERTScore evaluation loop: which corpus records are
 * used, and how each used record is cut into a prompt and a reference.
 *
 * The loop inspects record slots 0, 1, 2, ... in order and drops every record
 * that is too short; it never reads further to make up for a dropped record.
 * `Select` is that policy as a function of the inspected records.
 */
module Selection {

  /** One used corpus record: its position, the prompt given to the model and
      the ground-truth continuation the prediction is scored against. */
  datatype Sample = Sample(index: nat, prompt: string, reference: string)

  /** A record is used only when it holds a whole prompt and a whole reference. */
  predicate LongEnough(text: string, promptLength: nat, genLength: nat)
  {
    |text| >= promptLength + genLength
  }

  /** What record `index` contributes: nothing when it is too short, otherwise
      its first `promptLength` characters as prompt and the next `genLength`
      as reference. */
  function Cut(text: string, index: nat, promptLength: nat, genLength: nat): seq<Sample>
  {
    if |text| < promptLength + genLength then []
    else [Sample(index, text[..promptLength], text[promptLength..promptLength + genLength])]
  }

  /** A record contributes a sample exactly when it is long enough, and then
      the sample's prompt and reference have the requested lengths and
      together are the record's leading `promptLength + genLength` characters. */
  lemma CutSplits(text: string, index: nat, promptLength: nat, genLength: nat)
    ensures var r := Cut(text, index, promptLength, genLength);
      |r| <= 1 &&
      (r != [] <==> LongEnough(text, promptLength, genLength)) &&
      (r != [] ==>
        r[0].index == index &&
        |r[0].prompt| == promptLength && |r[0].reference| == genLength &&
        r[0].prompt + r[0].reference == text[..promptLength + genLength])
  {
  }

  /** The samples drawn from `records`, in record order; a sample's index is
      its record's position in `records`. */
  function Select(records: seq<string>, promptLength: nat, genLength: nat): seq<Sample>
    decreases |records|
  {
    if records == [] then []
    else
      var last := |records| - 1;
      Select(records[..last], promptLength, genLength) + Cut(records[last], last, promptLength, genLength)
  }

  /** Every sample comes from a long-enough record of `records` and is cut
      exactly: prompt and reference have the requested lengths and together
      are the record's leading `promptLength + genLength` characters. */
  ghost predicate WellCut(records: seq<string>, samples: seq<Sample>, promptLength: nat, genLength: nat)
  {
    forall k :: 0 <= k < |samples| ==>
      samples[k].index < |records| &&
      LongEnough(records[samples[k].index], promptLength, genLength) &&
      |samples[k].prompt| == promptLength && |samples[k].reference| == genLength &&
      samples[k].prompt + samples[k].reference == records[samples[k].index][..promptLength + genLength]
  }

  /** Samples appear in strictly increasing record order. */
  ghost predicate InRecordOrder(samples: seq<Sample>)
  {
    forall j, k :: 0 <= j < k < |samples| ==> samples[j].index < samples[k].index
  }

  /** Record `i` is one of the samples' sources. */
  ghost predicate Used(samples: seq<Sample>, i: nat)
  {
    exists k :: 0 <= k < |samples| && samples[k].index == i
  }

  /** At most one sample per inspected record slot. */
  lemma {:induction false} SelectBound(records: seq<string>, promptLength: nat, genLength: nat)
    ensures |Select(records, promptLength, genLength)| <= |records|
  {
    if records != [] {
      SelectBound(records[..|records| - 1], promptLength, genLength);
    }
  }

  /** Every selected sample is an exact split of a long-enough record. */
  lemma {:induction false} SelectWellCut(records: seq<string>, promptLength: nat, genLength: nat)
    ensures WellCut(records, Select(records, promptLength, genLength), promptLength, genLength)
  {
    if records != [] {
      var last := |records| - 1;
      var init := records[..last];
      SelectWellCut(init, promptLength, genLength);
      var s0 := Select(init, promptLength, genLength);
      var c := Cut(records[last], last, promptLength, genLength);
      var s := s0 + c;
      forall k | 0 <= k < |s|
        ensures s[k].index < |records| &&
          LongEnough(records[s[k].index], promptLength, genLength) &&
          |s[k].prompt| == promptLength && |s[k].reference| == genLength &&
          s[k].prompt + s[k].reference == records[s[k].index][..promptLength + genLength]
      {
        if k < |s0| {
          assert s[k] == s0[k];
          assert init[s0[k].index] == records[s0[k].index];
        } else {
          assert s[k] == c[0];
        }
      }
    }
  }

  /** Selection preserves record order: sample indices strictly increase. */
  lemma {:induction false} SelectInRecordOrder(records: seq<string>, promptLength: nat, genLength: nat)
    ensures InRecordOrder(Select(records, promptLength, genLength))
    ensures forall k :: 0 <= k < |Select(records, promptLength, genLength)| ==>
      Select(records, promptLength, genLength)[k].index < |records|
  {
    if records != [] {
      var last := |records| - 1;
      var init := records[..last];
      SelectInRecordOrder(init, promptLength, genLength);
      var s0 := Select(init, promptLength, genLength);
      var s := s0 + Cut(records[last], last, promptLength, genLength);
      assert forall k :: 0 <= k < |s0| ==> s[k] == s0[k];
    }
  }

  /** A record among the inspected ones is used if and only if it is long
      enough: short records are skipped, and nothing else is. */
  lemma {:induction false} SelectComplete(records: seq<string>, promptLength: nat, genLength: nat)
    ensures forall i :: 0 <= i < |records| ==>
      (LongEnough(records[i], promptLength, genLength) <==> Used(Select(records, promptLength, genLength), i))
  {
    if records != [] {
      var last := |records| - 1;
      var init := records[..last];
      SelectComplete(init, promptLength, genLength);
      SelectInRecordOrder(init, promptLength, genLength);
      var s0 := Select(init, promptLength, genLength);
      var c := Cut(records[last], last, promptLength, genLength);
      var s := s0 + c;
      forall i | 0 <= i < |records|
        ensures LongEnough(records[i], promptLength, genLength) <==> Used(s, i)
      {
        if i < last {
          assert records[i] == init[i];
          if Used(s0, i) {
            var k :| 0 <= k < |s0| && s0[k].index == i;
            assert s[k] == s0[k];
          }
          if Used(s, i) {
            var k :| 0 <= k < |s| && s[k].index == i;
            if k >= |s0| {
              assert false;
            }
            assert s0[k] == s[k];
          }
        } else {
          if Used(s, i) {
            var k :| 0 <= k < |s| && s[k].index == i;
            if k < |s0| {
              assert false;
            }
          }
          if LongEnough(records[i], promptLength, genLength) {
            assert s[|s0|] == c[0];
          }
        }
      }
    }
  }

  /** Inspecting more record slots only appends samples: the samples of the
      first `i` records are a prefix of the samples of all of them. */
  lemma {:induction false} SelectPrefix(records: seq<string>, i: nat, promptLength: nat, genLength: nat)
    requires i <= |records|
    ensures |Select(records[..i], promptLength, genLength)| <= |Select(records, promptLength, genLength)|
    ensures Select(records, promptLength, genLength)[..|Select(records[..i], promptLength, genLength)|]
         == Select(records[..i], promptLength, genLength)
    decreases |records| - i
  {
    if i == |records| {
      assert records[..i] == records;
    } else {
      var last := |records| - 1;
      var init := records[..last];
      assert init[..i] == records[..i];
      SelectPrefix(init, i, promptLength, genLength);
      var s0 := Select(init, promptLength, genLength);
      var s := Select(records, promptLength, genLength);
      assert s == s0 + Cut(records[last], last, promptLength, genLength);
      var n := |Select(records[..i], promptLength, genLength)|;
      assert s[..n] == s0[..n];
    }
  }

  /** When every inspected record is long enough, one sample per record. */
  lemma {:induction false} SelectAllLong(records: seq<string>, promptLength: nat, genLength: nat)
    requires forall i :: 0 <= i < |records| ==> LongEnough(records[i], promptLength, genLength)
    ensures |Select(records, promptLength, genLength)| == |records|
  {
    if records != [] {
      var last := |records| - 1;
      SelectAllLong(records[..last], promptLength, genLength);
    }
  }

  /** When no inspected record is long enough, nothing is selected. */
  lemma {:induction false} SelectNoneLong(records: seq<string>, promptLength: nat, genLength: nat)
    requires forall i :: 0 <= i < |records| ==> !LongEnough(records[i], promptLength, genLength)
    ensures Select(records, promptLength, genLength) == []
  {
    if records != [] {
      var last := |records| - 1;
      SelectNoneLong(records[..last], promptLength, genLength);
    }
  }

  /** The first sample comes from the first long-enough record. */
  lemma {:induction false} SelectFirst(records: seq<string>, i: nat, promptLength: nat, genLength: nat)
    requires i < |records| && LongEnough(records[i], promptLength, genLength)
    requires forall j :: 0 <= j < i ==> !LongEnough(records[j], promptLength, genLength)
    ensures Select(records, promptLength, genLength) != []
    ensures Select(records, promptLength, genLength)[0].index == i
  {
    var before := records[..i];
    assert forall j :: 0 <= j < i ==> before[j] == records[j];
    SelectNoneLong(before, promptLength, genLength);
    var upTo := records[..i + 1];
    assert upTo[..i] == before;
    assert Select(upTo, promptLength, genLength) == Cut(records[i], i, promptLength, genLength);
    SelectPrefix(records, i + 1, promptLength, genLength);
  }
}
