/** Subscription filters and what of them is sent. */
module Subscriptions {
  import opened Wrappers
  import opened Sets

  datatype Filter = Filter(queue: Option<string>, jobId: Option<string>)

  /** `to_dict` sends a field only when it is neither None nor empty. */
  function Sent(field: Option<string>): Option<string> {
    if field == Some("") then None else field
  }

  /** A filter as the server sees it. */
  function OnWire(f: Filter): Filter {
    Filter(Sent(f.queue), Sent(f.jobId))
  }

  function AllOnWire(fs: set<Filter>): set<Filter> {
    set f | f in fs :: OnWire(f)
  }

  predicate Clean(f: Filter) {
    f.queue != Some("") && f.jobId != Some("")
  }

  /** No two filters of the table look alike on the wire. */
  predicate Distinguishable(fs: set<Filter>) {
    forall f, g :: f in fs && g in fs && OnWire(f) == OnWire(g) ==> f == g
  }

  lemma CleanIsDistinguishable(fs: set<Filter>)
    requires forall f :: f in fs ==> Clean(f)
    ensures Distinguishable(fs)
  {
    forall f, g | f in fs && g in fs && OnWire(f) == OnWire(g) ensures f == g {
      assert f == OnWire(f) && g == OnWire(g);
    }
  }

  /** The server confuses two filters exactly when they differ at most in empty against absent fields. */
  lemma SameOnWire(f: Filter, g: Filter)
    ensures OnWire(f) == OnWire(g) <==> SameField(f.queue, g.queue) && SameField(f.jobId, g.jobId)
    ensures OnWire(f) == f <==> Clean(f)
  {
  }

  predicate SameField(a: Option<string>, b: Option<string>) {
    a == b || (a in {None, Some("")} && b in {None, Some("")})
  }

  /** Removing a filter removes its wire form exactly when no filter left in the table shares it. */
  lemma UnsubscribeOnWire(fs: set<Filter>, f: Filter)
    requires f in fs
    ensures AllOnWire(fs) - {OnWire(f)} == AllOnWire(fs - {f}) <==>
      !exists g :: g in fs && g != f && OnWire(g) == OnWire(f)
  {
    if exists g :: g in fs && g != f && OnWire(g) == OnWire(f) {
      var g :| g in fs && g != f && OnWire(g) == OnWire(f);
      assert g in fs - {f};
      assert OnWire(g) in AllOnWire(fs - {f});
    } else {
      forall w | w in AllOnWire(fs) - {OnWire(f)} ensures w in AllOnWire(fs - {f}) {
        var h :| h in fs && OnWire(h) == w;
        assert h in fs - {f};
      }
    }
  }

  /** Filters `Named(1)`, `Named(2)`, ... are clean and all different. */
  function Named(n: nat): Filter {
    Filter(Some(seq(n, _ => 'q')), None)
  }

  function Names(n: nat): (r: set<Filter>)
    ensures forall f :: f in r ==> Clean(f) && f.queue.Some? && 1 <= |f.queue.value| <= n
  {
    if n == 0 then {} else Names(n - 1) + {Named(n)}
  }

  lemma {:induction false} NamesAreMany(n: nat)
    ensures |Names(n)| == n
  {
    if n > 0 { NamesAreMany(n - 1); }
  }

  /** There is always one more clean filter. */
  lemma FreshFilter(fs: set<Filter>) returns (g: Filter)
    ensures Clean(g) && g !in fs
  {
    var names := Names(|fs| + 1);
    NamesAreMany(|fs| + 1);
    if names <= fs {
      SubsetSize(names, fs);
      assert false;
    }
    g :| g in names && g !in fs;
  }

  // ---- The table, a dictionary that keeps insertion order -----------------------------------------

  predicate NoRepeats(fs: seq<Filter>) {
    forall i, j :: 0 <= i < j < |fs| ==> fs[i] != fs[j]
  }

  function Elements(fs: seq<Filter>): set<Filter> {
    set f | f in fs
  }

  lemma ElementsAppend(fs: seq<Filter>, f: Filter)
    ensures Elements(fs + [f]) == Elements(fs) + {f}
    ensures AllOnWire(Elements(fs + [f])) == AllOnWire(Elements(fs)) + {OnWire(f)}
  {
    assert Elements(fs + [f]) == Elements(fs) + {f};
  }

  /** `del d[f]` */
  function Without(fs: seq<Filter>, f: Filter): seq<Filter> {
    if fs == [] then [] else if fs[0] == f then fs[1..] else [fs[0]] + Without(fs[1..], f)
  }

  lemma {:induction false} WithoutIsRemoval(fs: seq<Filter>, f: Filter)
    requires NoRepeats(fs)
    ensures NoRepeats(Without(fs, f)) && Elements(Without(fs, f)) == Elements(fs) - {f}
  {
    if fs != [] {
      var rest := fs[1..];
      assert fs == [fs[0]] + rest;
      assert fs[0] !in rest;
      assert Elements(fs) == {fs[0]} + Elements(rest);
      if fs[0] != f {
        WithoutIsRemoval(rest, f);
        var out := Without(rest, f);
        assert Elements([fs[0]] + out) == {fs[0]} + Elements(out);
        assert fs[0] !in Elements(out);
      }
    }
  }
}
