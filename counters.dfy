/** The dashboard's histograms: a `defaultdict(int)` filled by `c[k] += 1`, and its
    emission as `dict(sorted(c.items()))`. */
module Counters {
  import opened Text

  /** A `defaultdict(int)` of counts, in insertion order. */
  type Counter = seq<(string, nat)>

  /** `k in c`. */
  predicate Mentions(c: Counter, k: string)
  {
    c != [] && (c[0].0 == k || Mentions(c[1..], k))
  }

  predicate DistinctKeys(c: Counter)
  {
    c == [] || (!Mentions(c[1..], c[0].0) && DistinctKeys(c[1..]))
  }

  /** Every key present has been counted at least once. */
  predicate AllPositive(c: Counter)
  {
    forall i :: 0 <= i < |c| ==> c[i].1 >= 1
  }

  /** `c[k]` on a defaultdict: 0 for a key never counted. */
  function Count(c: Counter, k: string): nat
  {
    if c == [] then 0 else if c[0].0 == k then c[0].1 else Count(c[1..], k)
  }

  /** `sum(c.values())`. */
  function Total(c: Counter): nat
  {
    if c == [] then 0 else c[0].1 + Total(c[1..])
  }

  /** `c[k] += 1`: bumps the count in place, or appends the key with count 1. */
  function Inc(c: Counter, k: string): (r: Counter)
    ensures Count(r, k) == Count(c, k) + 1
    ensures Total(r) == Total(c) + 1
    ensures !Mentions(c, k) ==> r == c + [(k, 1)]
    ensures DistinctKeys(c) ==> DistinctKeys(r)
    ensures AllPositive(c) ==> AllPositive(r)
    decreases |c|, 0
  {
    if c == [] then [(k, 1)]
    else if c[0].0 == k then [(k, c[0].1 + 1)] + c[1..]
    else
      var rest := Inc(c[1..], k);
      IncOthers(c[1..], k);
      assert ([c[0]] + rest)[1..] == rest;
      assert !Mentions(c, k) ==> [c[0]] + (c[1..] + [(k, 1)]) == c + [(k, 1)];
      [c[0]] + rest
  }

  /** `c[k] += 1` leaves every other count alone and mentions exactly one key more at most. */
  lemma {:induction false} IncOthers(c: Counter, k: string)
    ensures forall k' :: k' != k ==> Count(Inc(c, k), k') == Count(c, k')
    ensures forall k' :: Mentions(Inc(c, k), k') <==> k' == k || Mentions(c, k')
    decreases |c|, 1
  {
    if c != [] && c[0].0 != k {
      IncOthers(c[1..], k);
      assert Inc(c, k) == [c[0]] + Inc(c[1..], k);
      assert Inc(c, k)[1..] == Inc(c[1..], k);
    }
  }

  /** With distinct keys, a key's count is the one stored beside it. */
  lemma {:induction false} CountAt(c: Counter, i: nat)
    requires DistinctKeys(c) && i < |c|
    ensures Count(c, c[i].0) == c[i].1
  {
    if i > 0 {
      assert c[1..][i - 1] == c[i];
      if c[0].0 == c[i].0 {
        MentionsAt(c[1..], i - 1);
        assert false;
      }
      CountAt(c[1..], i - 1);
    }
  }

  lemma {:induction false} MentionsAt(c: Counter, i: nat)
    requires i < |c|
    ensures Mentions(c, c[i].0)
  {
    if i > 0 {
      assert c[1..][i - 1] == c[i];
      MentionsAt(c[1..], i - 1);
    }
  }

  /** Keys strictly ascending in Python's `str` order. */
  ghost predicate Ascending(c: Counter)
  {
    forall i, j :: 0 <= i < j < |c| ==> StrLt(c[i].0, c[j].0)
  }

  /** Insertion of one pair into a list sorted by key. */
  function Insert(x: (string, nat), s: Counter): (r: Counter)
    ensures multiset(r) == multiset(s) + multiset{x}
    ensures |r| == |s| + 1
    ensures Total(r) == Total(s) + x.1
    ensures forall k :: Mentions(r, k) <==> k == x.0 || Mentions(s, k)
    ensures forall k :: k != x.0 ==> Count(r, k) == Count(s, k)
    ensures !Mentions(s, x.0) ==> Count(r, x.0) == x.1
  {
    if s == [] then [x]
    else if StrLt(s[0].0, x.0) then
      var rest := Insert(x, s[1..]);
      assert ([s[0]] + rest)[1..] == rest;
      assert s == [s[0]] + s[1..];
      [s[0]] + rest
    else [x] + s
  }

  /** `dict(sorted(c.items()))`: the same entries, re-ordered by key. */
  function SortedByKey(c: Counter): (r: Counter)
    ensures multiset(r) == multiset(c)
    ensures |r| == |c|
    ensures Total(r) == Total(c)
    ensures forall k :: Mentions(r, k) <==> Mentions(c, k)
    ensures DistinctKeys(c) ==> forall k :: Count(r, k) == Count(c, k)
  {
    if c == [] then []
    else
      assert c == [c[0]] + c[1..];
      Insert(c[0], SortedByKey(c[1..]))
  }

  /** Inserting a new key into an ascending list keeps it ascending. */
  lemma {:induction false} InsertAscending(x: (string, nat), s: Counter)
    requires Ascending(s) && !Mentions(s, x.0)
    ensures Ascending(Insert(x, s))
  {
    if s != [] {
      if StrLt(s[0].0, x.0) {
        var rest := Insert(x, s[1..]);
        InsertAscending(x, s[1..]);
        HeadBelowInsert(x, s);
        var r := [s[0]] + rest;
        forall i, j | 0 <= i < j < |r| ensures StrLt(r[i].0, r[j].0) {
          if i > 0 {
            assert r[i] == rest[i - 1] && r[j] == rest[j - 1];
          } else {
            assert r[j] == rest[j - 1];
          }
        }
      } else {
        InsertFrontAscending(x, s);
      }
    }
  }

  /** A head key below `x` stays below everything the tail becomes after the insertion. */
  lemma HeadBelowInsert(x: (string, nat), s: Counter)
    requires s != [] && Ascending(s) && StrLt(s[0].0, x.0)
    ensures forall j :: 0 <= j < |Insert(x, s[1..])| ==> StrLt(s[0].0, Insert(x, s[1..])[j].0)
  {
    var rest := Insert(x, s[1..]);
    forall j | 0 <= j < |rest| ensures StrLt(s[0].0, rest[j].0) {
      assert rest[j] in multiset(rest);
      if rest[j] != x {
        assert rest[j] in s[1..];
        var m :| 0 <= m < |s[1..]| && s[1..][m] == rest[j];
        assert s[m + 1] == rest[j];
      }
    }
  }

  /** A new key not above the head goes in front. */
  lemma InsertFrontAscending(x: (string, nat), s: Counter)
    requires s != [] && Ascending(s) && !Mentions(s, x.0) && !StrLt(s[0].0, x.0)
    ensures Ascending([x] + s)
  {
    assert s[0].0 != x.0;
    StrLtTotal(s[0].0, x.0);
    var r := [x] + s;
    forall i, j | 0 <= i < j < |r| ensures StrLt(r[i].0, r[j].0) {
      if i == 0 && j > 1 {
        StrLtTransitive(x.0, s[0].0, s[j - 1].0);
      }
    }
  }

  /** The emitted histogram has strictly ascending keys. */
  lemma {:induction false} SortedByKeyAscending(c: Counter)
    requires DistinctKeys(c)
    ensures Ascending(SortedByKey(c))
  {
    if c != [] {
      SortedByKeyAscending(c[1..]);
      InsertAscending(c[0], SortedByKey(c[1..]));
    }
  }
}
