/** Grouping appointments by a key, as the dashboard cards do when they fold a list into
    an object keyed by service name, staff name, staff id or service id. Keys appear in
    the order they were first met, which is the order `Object.entries` and
    `Object.values` give for keys that are not array indices. An appointment whose key is
    `None` is skipped. */
module Tally {
  import opened Wrappers
  import opened Types
  import opened Seqs

  /** One group: how many appointments it holds, how many of them are concluded, and the
      revenue of the concluded ones. */
  datatype Bucket = Bucket(key: string, total: nat, concluidos: nat, faturamento: real)

  /** The contribution of one appointment to its group. */
  function AddTo(b: Bucket, a: Agendamento): Bucket {
    if a.status == Concluido then
      b.(total := b.total + 1, concluidos := b.concluidos + 1,
         faturamento := b.faturamento + a.preco)
    else b.(total := b.total + 1)
  }

  function KeyIndex(bs: seq<Bucket>, k: string): (i: nat)
    ensures i <= |bs|
    ensures i < |bs| ==> bs[i].key == k
    ensures i == |bs| ==> forall j :: 0 <= j < |bs| ==> bs[j].key != k
  {
    FindIndex(bs, (b: Bucket) => b.key == k)
  }

  /** `acc[k]` created on first sight, then incremented. */
  function Bump(bs: seq<Bucket>, k: string, a: Agendamento): seq<Bucket> {
    var i := KeyIndex(bs, k);
    if i < |bs| then bs[i := AddTo(bs[i], a)] else bs + [AddTo(Bucket(k, 0, 0, 0.0), a)]
  }

  function GroupBy(s: seq<Agendamento>, keyOf: Agendamento -> Option<string>): seq<Bucket> {
    if s == [] then []
    else
      var acc := GroupBy(s[..|s| - 1], keyOf);
      match keyOf(s[|s| - 1])
      case None => acc
      case Some(k) => Bump(acc, k, s[|s| - 1])
  }

  // ---------------------------------------------------------------- reference

  function InGroup(keyOf: Agendamento -> Option<string>, k: string): Agendamento -> bool {
    a => keyOf(a) == Some(k)
  }

  function ConcludedInGroup(keyOf: Agendamento -> Option<string>, k: string): Agendamento -> bool {
    a => keyOf(a) == Some(k) && a.status == Concluido
  }

  function GroupRevenue(keyOf: Agendamento -> Option<string>, k: string): Agendamento -> real {
    a => if keyOf(a) == Some(k) && a.status == Concluido then a.preco else 0.0
  }

  /** The group of key `k` computed directly from the list: counts by filtering, revenue
      by summing. */
  function Stats(s: seq<Agendamento>, keyOf: Agendamento -> Option<string>, k: string): Bucket {
    Bucket(k, Count(s, InGroup(keyOf, k)), Count(s, ConcludedInGroup(keyOf, k)),
           SumBy(s, GroupRevenue(keyOf, k)))
  }

  lemma StatsSnoc(init: seq<Agendamento>, a: Agendamento, keyOf: Agendamento -> Option<string>,
                  k: string)
    ensures Stats(init + [a], keyOf, k) ==
            if keyOf(a) == Some(k) then AddTo(Stats(init, keyOf, k), a) else Stats(init, keyOf, k)
  {
    assert (init + [a])[..|init + [a]| - 1] == init;
  }

  lemma {:induction false} StatsEmpty(s: seq<Agendamento>, keyOf: Agendamento -> Option<string>,
                                      k: string)
    requires forall i :: 0 <= i < |s| ==> keyOf(s[i]) != Some(k)
    ensures Stats(s, keyOf, k) == Bucket(k, 0, 0, 0.0)
  {
    if s != [] {
      StatsEmpty(s[..|s| - 1], keyOf, k);
    }
  }

  function SumTotals(bs: seq<Bucket>): nat {
    if bs == [] then 0 else SumTotals(bs[..|bs| - 1]) + bs[|bs| - 1].total
  }

  lemma {:induction false} SumTotalsUpdate(bs: seq<Bucket>, i: nat, b: Bucket)
    requires i < |bs|
    ensures SumTotals(bs[i := b]) == SumTotals(bs) - bs[i].total + b.total
  {
    var init := bs[..|bs| - 1];
    if i < |bs| - 1 {
      assert bs[i := b][..|bs| - 1] == init[i := b];
      SumTotalsUpdate(init, i, b);
    } else {
      assert bs[i := b][..|bs| - 1] == init;
    }
  }

  lemma SumTotalsSnoc(bs: seq<Bucket>, b: Bucket)
    ensures SumTotals(bs + [b]) == SumTotals(bs) + b.total
  {
    assert (bs + [b])[..|bs + [b]| - 1] == bs;
  }

  ghost predicate DistinctKeys(bs: seq<Bucket>) {
    forall i, j :: 0 <= i < j < |bs| ==> bs[i].key != bs[j].key
  }

  ghost predicate HasKey(bs: seq<Bucket>, k: string) {
    exists j :: 0 <= j < |bs| && bs[j].key == k
  }

  /** One step of the fold: the group of `k` grows by `a`, or is created after the
      others; nothing else changes, and the sizes grow by one in total. */
  lemma BumpSpec(bs: seq<Bucket>, k: string, a: Agendamento)
    requires DistinctKeys(bs)
    ensures |Bump(bs, k, a)| == if HasKey(bs, k) then |bs| else |bs| + 1
    ensures forall j :: 0 <= j < |bs| ==>
              Bump(bs, k, a)[j] == if bs[j].key == k then AddTo(bs[j], a) else bs[j]
    ensures !HasKey(bs, k) ==> Bump(bs, k, a)[|bs|] == AddTo(Bucket(k, 0, 0, 0.0), a)
    ensures DistinctKeys(Bump(bs, k, a))
    ensures forall k' :: HasKey(Bump(bs, k, a), k') <==> HasKey(bs, k') || k' == k
    ensures SumTotals(Bump(bs, k, a)) == SumTotals(bs) + 1
  {
    BumpShape(bs, k, a);
    BumpKeys(bs, k, a);
    var i := KeyIndex(bs, k);
    if i < |bs| {
      SumTotalsUpdate(bs, i, AddTo(bs[i], a));
    } else {
      SumTotalsSnoc(bs, AddTo(Bucket(k, 0, 0, 0.0), a));
    }
  }

  lemma BumpShape(bs: seq<Bucket>, k: string, a: Agendamento)
    requires DistinctKeys(bs)
    ensures |Bump(bs, k, a)| == if HasKey(bs, k) then |bs| else |bs| + 1
    ensures forall j :: 0 <= j < |bs| ==>
              Bump(bs, k, a)[j] == if bs[j].key == k then AddTo(bs[j], a) else bs[j]
    ensures !HasKey(bs, k) ==> Bump(bs, k, a)[|bs|] == AddTo(Bucket(k, 0, 0, 0.0), a)
  {
  }

  lemma BumpKeys(bs: seq<Bucket>, k: string, a: Agendamento)
    requires DistinctKeys(bs)
    ensures DistinctKeys(Bump(bs, k, a))
    ensures forall k' :: HasKey(Bump(bs, k, a), k') <==> HasKey(bs, k') || k' == k
  {
    var i := KeyIndex(bs, k);
    var r := Bump(bs, k, a);
    forall k' | HasKey(bs, k') ensures HasKey(r, k') {
      var j :| 0 <= j < |bs| && bs[j].key == k';
      assert r[j].key == k';
    }
    if i < |bs| {
      forall k' | HasKey(r, k') ensures HasKey(bs, k') {
        var j :| 0 <= j < |r| && r[j].key == k';
        assert bs[j].key == k';
      }
    } else {
      forall k' | HasKey(r, k') && k' != k ensures HasKey(bs, k') {
        var j :| 0 <= j < |r| && r[j].key == k';
        assert bs[j].key == k';
      }
      assert r[|bs|].key == k;
    }
  }

  lemma SnocExists(init: seq<Agendamento>, a: Agendamento, keyOf: Agendamento -> Option<string>,
                   k: string)
    ensures (exists i :: 0 <= i < |init + [a]| && keyOf((init + [a])[i]) == Some(k)) <==>
            (exists i :: 0 <= i < |init| && keyOf(init[i]) == Some(k)) || keyOf(a) == Some(k)
  {
    var s := init + [a];
    if exists i :: 0 <= i < |init| && keyOf(init[i]) == Some(k) {
      var i :| 0 <= i < |init| && keyOf(init[i]) == Some(k);
      assert s[i] == init[i];
    }
    if keyOf(a) == Some(k) {
      assert s[|init|] == a;
    }
  }

  /** The groups have distinct keys, there is a group for exactly the keys some
      appointment has, and the group sizes add up to the number of appointments with a
      key. */
  lemma GroupByKeys(s: seq<Agendamento>, keyOf: Agendamento -> Option<string>)
    ensures DistinctKeys(GroupBy(s, keyOf))
    ensures forall k :: HasKey(GroupBy(s, keyOf), k) <==>
              exists i :: 0 <= i < |s| && keyOf(s[i]) == Some(k)
    ensures SumTotals(GroupBy(s, keyOf)) == Count(s, a => keyOf(a).Some?)
  {
    GroupByDistinct(s, keyOf);
    GroupByHasKey(s, keyOf);
    GroupByTotal(s, keyOf);
  }

  lemma {:induction false} GroupByDistinct(s: seq<Agendamento>, keyOf: Agendamento -> Option<string>)
    ensures DistinctKeys(GroupBy(s, keyOf))
  {
    if s != [] {
      var init, a := s[..|s| - 1], s[|s| - 1];
      GroupByDistinct(init, keyOf);
      if keyOf(a).Some? {
        BumpKeys(GroupBy(init, keyOf), keyOf(a).value, a);
      }
    }
  }

  lemma {:induction false} GroupByHasKey(s: seq<Agendamento>, keyOf: Agendamento -> Option<string>)
    ensures forall k :: HasKey(GroupBy(s, keyOf), k) <==>
              exists i :: 0 <= i < |s| && keyOf(s[i]) == Some(k)
  {
    if s != [] {
      var init, a := s[..|s| - 1], s[|s| - 1];
      assert s == init + [a];
      GroupByHasKey(init, keyOf);
      GroupByDistinct(init, keyOf);
      forall k ensures (exists i :: 0 <= i < |s| && keyOf(s[i]) == Some(k)) <==>
                       (exists i :: 0 <= i < |init| && keyOf(init[i]) == Some(k)) ||
                       keyOf(a) == Some(k)
      {
        SnocExists(init, a, keyOf, k);
      }
      if keyOf(a).Some? {
        BumpKeys(GroupBy(init, keyOf), keyOf(a).value, a);
      }
    }
  }

  lemma {:induction false} GroupByTotal(s: seq<Agendamento>, keyOf: Agendamento -> Option<string>)
    ensures SumTotals(GroupBy(s, keyOf)) == Count(s, a => keyOf(a).Some?)
  {
    if s != [] {
      var init, a := s[..|s| - 1], s[|s| - 1];
      assert s == init + [a];
      GroupByTotal(init, keyOf);
      GroupByDistinct(init, keyOf);
      CountSnoc(init, a, a => keyOf(a).Some?);
      if keyOf(a).Some? {
        BumpSpec(GroupBy(init, keyOf), keyOf(a).value, a);
      }
    }
  }

  /** Each group holds exactly the counts and revenue computed directly from the list. */
  lemma {:induction false} GroupByStats(s: seq<Agendamento>, keyOf: Agendamento -> Option<string>)
    ensures forall i :: 0 <= i < |GroupBy(s, keyOf)| ==>
              GroupBy(s, keyOf)[i] == Stats(s, keyOf, GroupBy(s, keyOf)[i].key)
  {
    if s != [] {
      var init, a := s[..|s| - 1], s[|s| - 1];
      assert s == init + [a];
      GroupByStats(init, keyOf);
      GroupByDistinct(init, keyOf);
      GroupByHasKey(init, keyOf);
      var r := GroupBy(s, keyOf);
      forall i | 0 <= i < |r| ensures r[i] == Stats(s, keyOf, r[i].key) {
        StatsStep(init, a, keyOf, i);
      }
    }
  }

  /** The fold step keeps each group equal to its directly computed statistics. */
  lemma StatsStep(init: seq<Agendamento>, a: Agendamento, keyOf: Agendamento -> Option<string>,
                  i: nat)
    requires DistinctKeys(GroupBy(init, keyOf))
    requires forall k :: HasKey(GroupBy(init, keyOf), k) <==>
               exists j :: 0 <= j < |init| && keyOf(init[j]) == Some(k)
    requires forall j :: 0 <= j < |GroupBy(init, keyOf)| ==>
               GroupBy(init, keyOf)[j] == Stats(init, keyOf, GroupBy(init, keyOf)[j].key)
    requires i < |GroupBy(init + [a], keyOf)|
    ensures GroupBy(init + [a], keyOf)[i] == Stats(init + [a], keyOf, GroupBy(init + [a], keyOf)[i].key)
  {
    var s := init + [a];
    assert s[..|s| - 1] == init;
    var acc := GroupBy(init, keyOf);
    var r := GroupBy(s, keyOf);
    if keyOf(a).None? {
      StatsSnoc(init, a, keyOf, r[i].key);
    } else {
      var k := keyOf(a).value;
      BumpShape(acc, k, a);
      if i < |acc| {
        StatsSnoc(init, a, keyOf, acc[i].key);
      } else {
        StatsSnoc(init, a, keyOf, k);
        StatsEmpty(init, keyOf, k);
      }
    }
  }

  /** Every group is non-empty, and its concluded count never exceeds its size. */
  lemma {:induction false} GroupBySizes(s: seq<Agendamento>, keyOf: Agendamento -> Option<string>)
    ensures forall i :: 0 <= i < |GroupBy(s, keyOf)| ==>
              1 <= GroupBy(s, keyOf)[i].total &&
              GroupBy(s, keyOf)[i].concluidos <= GroupBy(s, keyOf)[i].total
  {
    if s != [] {
      GroupBySizes(s[..|s| - 1], keyOf);
    }
  }
}
