/**
 * The pagination contract of the fetch loop: page k is requested at offset
 * PageSize*k, and the loop stops right after the first page shorter than
 * PageSize, or at the first failing request.
 */
module Pagination {
  import opened Wrappers
  import opened Entities
  import opened Ports

  /** The index of the page that comes back short when `n` vehicles match:
      the loop asks for pages 0 .. LastPage(n). */
  function LastPage(n: nat): nat {
    n / PageSize
  }

  /** The first page index in `k .. last` whose request fails. */
  function FirstOutage(outages: map<nat, Error>, k: nat, last: nat): (r: Option<nat>)
    ensures r.Some? ==> k <= r.value <= last && PageSize * r.value in outages
    ensures r.Some? ==> forall j | k <= j < r.value :: PageSize * j !in outages
    ensures r.None? ==> forall j | k <= j <= last :: PageSize * j !in outages
    decreases last + 1 - k
  {
    if k > last then None
    else if PageSize * k in outages then Some(k)
    else FirstOutage(outages, k + 1, last)
  }

  /** How many requests a run over `n` matching vehicles makes. */
  function NumCalls(n: nat, outages: map<nat, Error>): nat {
    match FirstOutage(outages, 0, LastPage(n))
    case Some(k) => k + 1
    case None => LastPage(n) + 1
  }

  /** The arguments of the first `n` requests. */
  function Calls(beginDate: int, n: nat): seq<(int, nat)>
    decreases n
  {
    if n == 0 then [] else Calls(beginDate, n - 1) + [(beginDate, PageSize * (n - 1))]
  }

  /** `log` extended with the first `n` requests of a run. */
  function Log(log: seq<(int, nat)>, beginDate: int, n: nat): seq<(int, nat)>
    decreases n
  {
    if n == 0 then log else Log(log, beginDate, n - 1) + [(beginDate, PageSize * (n - 1))]
  }

  lemma {:induction false} LogCalls(log: seq<(int, nat)>, beginDate: int, n: nat)
    ensures Log(log, beginDate, n) == log + Calls(beginDate, n)
    decreases n
  {
    if n > 0 {
      LogCalls(log, beginDate, n - 1);
    }
  }

  /** The k-th request asks for offset PageSize*k. */
  lemma {:induction false} CallsAt(beginDate: int, n: nat)
    ensures |Calls(beginDate, n)| == n
    ensures forall k | 0 <= k < n :: Calls(beginDate, n)[k] == (beginDate, PageSize * k)
    decreases n
  {
    if n > 0 {
      CallsAt(beginDate, n - 1);
    }
  }

  /** Page k is full for every k before the last page and short at the last
      one, so the loop stops exactly there; together the pages are all the
      matching vehicles, each once and in order. */
  lemma {:induction false} WindowsCover(vs: seq<Vehicle>, k: nat)
    requires k <= LastPage(|vs|)
    ensures |Window(vs, PageSize * k)| == PageSize <==> k < LastPage(|vs|)
    ensures vs[..PageSize * k] + Window(vs, PageSize * k) == if k < LastPage(|vs|) then vs[..PageSize * (k + 1)] else vs
  {
    var n := |vs|;
    var last := LastPage(n);
    assert PageSize * last <= n < PageSize * last + PageSize;
    if k < last {
      assert PageSize * (k + 1) <= PageSize * last;
      assert vs[..PageSize * k] + vs[PageSize * k .. PageSize * k + PageSize] == vs[..PageSize * (k + 1)];
    } else {
      assert vs[..PageSize * k] + vs[PageSize * k..] == vs;
    }
  }

  /** 2400 matching vehicles and no outage: exactly three requests, at offsets
      0, 1000 and 2000, returning 1000, 1000 and 400 vehicles. */
  lemma ThreePages(beginDate: int, vs: seq<Vehicle>)
    requires |vs| == 2400
    ensures NumCalls(|vs|, map[]) == 3
    ensures Calls(beginDate, NumCalls(|vs|, map[])) == [(beginDate, 0), (beginDate, 1000), (beginDate, 2000)]
    ensures |Window(vs, 0)| == 1000 && |Window(vs, 1000)| == 1000 && |Window(vs, 2000)| == 400
    ensures Window(vs, 0) + Window(vs, 1000) + Window(vs, 2000) == vs
  {
    assert LastPage(2400) == 2;
    CallsAt(beginDate, 3);
    WindowsCover(vs, 0);
    WindowsCover(vs, 1);
    WindowsCover(vs, 2);
    assert vs[..0] == [];
  }

  /** When the matches fill whole pages the loop still asks for one more page,
      which comes back empty: 2000 matches take three requests. */
  lemma WholePagesProbe(vs: seq<Vehicle>)
    requires |vs| == 2000
    ensures NumCalls(|vs|, map[]) == 3
    ensures |Window(vs, 1000)| == PageSize && Window(vs, 2000) == []
  {
    assert LastPage(2000) == 2;
  }
}
