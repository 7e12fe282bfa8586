/**
 * The allow-list filter `createParamsListIncludedInWhitelist`
 * (src/createEnvfile.ts). Each record is filtered on its own; its kept keys
 * are accumulated with `Object.assign({ [key]: value }, acc)`, which puts each
 * newly kept key in front of the ones kept before it.
 */
module Whitelist {
  import opened Wrappers
  import opened Records

  /** The entries whose key is in the allow-list, in source order. */
  function Kept(es: seq<Entry>, allow: seq<string>): seq<Entry> {
    if es == [] then []
    else (if es[0].0 in allow then [es[0]] else []) + Kept(es[1..], allow)
  }

  function Reverse<T>(s: seq<T>): seq<T> {
    if s == [] then [] else Reverse(s[1..]) + [s[0]]
  }

  /**
   * The accumulator after the loop has visited every entry of `es`: the last
   * kept entry is in front.
   */
  function Filtered(es: seq<Entry>, allow: seq<string>): seq<Entry> {
    if es == [] then []
    else
      var last := es[|es| - 1];
      (if last.0 in allow then [last] else []) + Filtered(es[..|es| - 1], allow)
  }

  lemma {:induction false} KeptAppendOne(es: seq<Entry>, e: Entry, allow: seq<string>)
    ensures Kept(es + [e], allow) == Kept(es, allow) + (if e.0 in allow then [e] else [])
    decreases |es|
  {
    if es == [] {
      assert [e][1..] == [];
    } else {
      var head := if es[0].0 in allow then [es[0]] else [];
      var tail := if e.0 in allow then [e] else [];
      assert (es + [e])[0] == es[0];
      assert (es + [e])[1..] == es[1..] + [e];
      KeptAppendOne(es[1..], e, allow);
      assert Kept(es + [e], allow) == head + (Kept(es[1..], allow) + tail);
      assert head + (Kept(es[1..], allow) + tail) == (head + Kept(es[1..], allow)) + tail;
    }
  }

  lemma {:induction false} ReverseAppend<T>(a: seq<T>, b: seq<T>)
    ensures Reverse(a + b) == Reverse(b) + Reverse(a)
    decreases |a|
  {
    if a == [] {
      assert a + b == b;
    } else {
      assert (a + b)[1..] == a[1..] + b;
      ReverseAppend(a[1..], b);
    }
  }

  /** The filtered record is the order-preserving filter, reversed. */
  lemma {:induction false} FilteredIsReversedKept(es: seq<Entry>, allow: seq<string>)
    ensures Filtered(es, allow) == Reverse(Kept(es, allow))
    decreases |es|
  {
    if es != [] {
      var init, last := es[..|es| - 1], es[|es| - 1];
      var tail := if last.0 in allow then [last] else [];
      assert es == init + [last];
      FilteredIsReversedKept(init, allow);
      KeptAppendOne(init, last, allow);
      ReverseAppend(Kept(init, allow), tail);
      assert Reverse(tail) == tail by {
        if tail != [] { assert tail[1..] == []; }
      }
    }
  }

  /** An entry survives exactly when it was in the record and its key is allowed; values are untouched. */
  lemma {:induction false} FilteredMembership(es: seq<Entry>, allow: seq<string>, e: Entry)
    ensures e in Filtered(es, allow) <==> e in es && e.0 in allow
    decreases |es|
  {
    if es != [] {
      var init := es[..|es| - 1];
      assert es == init + [es[|es| - 1]];
      FilteredMembership(init, allow, e);
    }
  }

  lemma {:induction false} KeptAllAllowed(es: seq<Entry>, allow: seq<string>)
    requires forall k :: 0 <= k < |es| ==> es[k].0 in allow
    ensures Kept(es, allow) == es
    decreases |es|
  {
    if es != [] {
      KeptAllAllowed(es[1..], allow);
    }
  }

  /** Filtering keeps keys unique. */
  lemma {:induction false} FilteredUnique(es: seq<Entry>, allow: seq<string>)
    requires UniqueKeys(es)
    ensures UniqueKeys(Filtered(es, allow))
    decreases |es|
  {
    if es != [] {
      var init, last := es[..|es| - 1], es[|es| - 1];
      FilteredUnique(init, allow);
      var rest := Filtered(init, allow);
      if last.0 in allow {
        forall k | 0 <= k < |rest| ensures rest[k].0 != last.0 {
          FilteredMembership(init, allow, rest[k]);
          var m :| 0 <= m < |init| && init[m] == rest[k];
          assert es[m] == rest[k];
        }
        var r := [last] + rest;
        forall i, j | 0 <= i < j < |r| ensures r[i].0 != r[j].0 {
          if i > 0 { assert r[i] == rest[i - 1] && r[j] == rest[j - 1]; }
        }
      }
    }
  }

  /** One record after filtering. */
  function FilterRecord(r: Record, allow: seq<string>): Record {
    FilteredUnique(r, allow);
    Filtered(r, allow)
  }

  /** The whole filter: no allow-list passes the list through; otherwise every record is filtered. */
  function IncludedInWhitelist(list: seq<Record>, allow: Option<seq<string>>): seq<Record> {
    if allow.None? then list
    else seq(|list|, i requires 0 <= i < |list| => FilterRecord(list[i], allow.value))
  }

  /**
   * The inner loop of the source: visit the record's keys in order and put
   * every allowed one in front of the accumulator.
   */
  method FilterRecordLoop(r: Record, allow: seq<string>) returns (acc: Record)
    ensures acc == FilterRecord(r, allow)
  {
    acc := [];
    for i := 0 to |r|
      invariant acc == Filtered(r[..i], allow)
    {
      assert r[..i + 1][..i] == r[..i];
      if r[i].0 in allow {
        forall k | 0 <= k < |acc| ensures acc[k].0 != r[i].0 {
          FilteredMembership(r[..i], allow, acc[k]);
          var m :| 0 <= m < i && r[m] == acc[k];
        }
        acc := [r[i]] + acc;
      }
    }
    assert r[..|r|] == r;
  }

  /** The outer `map` over the records, calling the inner loop for each. */
  method ParamsListIncludedInWhitelist(list: seq<Record>, allow: Option<seq<string>>)
    returns (out: seq<Record>)
    ensures out == IncludedInWhitelist(list, allow)
  {
    if allow.None? {
      return list;
    }
    out := [];
    for i := 0 to |list|
      invariant |out| == i
      invariant forall k :: 0 <= k < i ==> out[k] == FilterRecord(list[k], allow.value)
    {
      var filtered := FilterRecordLoop(list[i], allow.value);
      out := out + [filtered];
    }
  }

  /** The number of records never changes, and without an allow-list nothing does. */
  lemma WhitelistKeepsRecords(list: seq<Record>, allow: Option<seq<string>>)
    ensures |IncludedInWhitelist(list, allow)| == |list|
    ensures allow.None? ==> IncludedInWhitelist(list, allow) == list
  {
  }

  /**
   * With an allow-list, record `i` of the output holds exactly the entries of
   * record `i` of the input whose key is allowed, values unchanged.
   */
  lemma WhitelistEntries(list: seq<Record>, allow: seq<string>, i: nat, e: Entry)
    requires i < |list|
    ensures e in IncludedInWhitelist(list, Some(allow))[i] <==> e in list[i] && e.0 in allow
  {
    FilteredMembership(list[i], allow, e);
  }

  /** Within a filtered record the kept keys are in reverse source order. */
  lemma WhitelistReversesOrder(list: seq<Record>, allow: seq<string>, i: nat)
    requires i < |list|
    ensures IncludedInWhitelist(list, Some(allow))[i] == Reverse(Kept(list[i], allow))
  {
    FilteredIsReversedKept(list[i], allow);
  }

  /** Filtering distributes over concatenation of record lists. */
  lemma WhitelistAppend(a: seq<Record>, b: seq<Record>, allow: Option<seq<string>>)
    ensures IncludedInWhitelist(a + b, allow) == IncludedInWhitelist(a, allow) + IncludedInWhitelist(b, allow)
  {
  }

  /** When every key of a record is allowed, the filter returns it reversed. */
  lemma WhitelistAllAllowed(list: seq<Record>, allow: seq<string>, i: nat)
    requires i < |list|
    requires forall k :: 0 <= k < |list[i]| ==> list[i][k].0 in allow
    ensures IncludedInWhitelist(list, Some(allow))[i] == Reverse(list[i])
  {
    FilteredIsReversedKept(list[i], allow);
    KeptAllAllowed(list[i], allow);
  }
}
