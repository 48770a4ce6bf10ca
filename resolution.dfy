/** What one `InitValues` call computes (configurator.go), as functions:
    the provider chain for one leaf (`applyProviders`), the depth-first walk
    of the target (`fillUp`), provider registration and the whole call.
    The `Configurator` class is proved against these functions; the lemmas
    here state what the package promises about them. */
module Resolution {
  import opened Fields

  // ---------------------------------------------------------------------
  // The provider chain for one leaf field (applyProviders)
  // ---------------------------------------------------------------------

  /** The first provider, from position `i` on, whose `Provide` returns nil
      for the field, or |ps| when every one returns an error. */
  function FirstClaim(ps: seq<Provider>, d: FieldDesc, v: Value, i: nat): (k: nat)
    requires i <= |ps|
    ensures i <= k <= |ps|
    ensures k < |ps| ==> ps[k].provide(d, v).Assigned?
    ensures forall j | i <= j < k :: ps[j].provide(d, v).Failed?
    decreases |ps| - i
  {
    if i == |ps| then i
    else if ps[i].provide(d, v).Assigned? then i
    else FirstClaim(ps, d, v, i + 1)
  }

  /** The `Provide` calls made on `d` by the first `n` providers, in order. */
  function Consulted(ps: seq<Provider>, d: FieldDesc, n: nat): (cs: seq<Call>)
    requires n <= |ps|
    ensures |cs| == n
    ensures forall j | 0 <= j < n :: cs[j] == Call(ps[j].name, d)
  {
    if n == 0 then [] else Consulted(ps, d, n - 1) + [Call(ps[n - 1].name, d)]
  }

  lemma ConsultedStep(ps: seq<Provider>, d: FieldDesc, n: nat)
    requires n < |ps|
    ensures Consulted(ps, d, n + 1) == Consulted(ps, d, n) + [Call(ps[n].name, d)]
  {
  }

  /** What `applyProviders` does to one leaf: its new value, the `Provide`
      calls it makes and the `onErrorFn` calls it makes. */
  datatype Step = Step(value: Value, calls: seq<Call>, reports: seq<Report>)

  /** The unresolved-field report for `d` (configurator.go:114). */
  function UnresolvedReport(h: Handler, d: FieldDesc): Report
  {
    Report(h, d, Unresolved(d.name, d.tags))
  }

  /** `applyProviders` on the leaf `d` holding `v`: each provider is asked
      at most once and at most one report is made, and a report is made
      exactly when the field is exported and every provider declines it. */
  function Settle(ps: seq<Provider>, h: Handler, d: FieldDesc, v: Value): (st: Step)
    ensures |st.calls| <= |ps| && |st.reports| <= 1
    ensures st.reports != [] <==> d.exported && forall j | 0 <= j < |ps| :: ps[j].provide(d, v).Failed?
  {
    if !d.exported then Step(v, [], [])
    else
      var k := FirstClaim(ps, d, v, 0);
      if k < |ps| then Step(ps[k].provide(d, v).value, Consulted(ps, d, k + 1), [])
      else Step(v, Consulted(ps, d, |ps|), [UnresolvedReport(h, d)])
  }

  /** The first claim is at `k` when every provider before `k` declines and
      provider `k`, if there is one, accepts. */
  lemma {:induction false} FirstClaimIs(ps: seq<Provider>, d: FieldDesc, v: Value, i: nat, k: nat)
    requires i <= k <= |ps|
    requires forall j | i <= j < k :: ps[j].provide(d, v).Failed?
    requires k < |ps| ==> ps[k].provide(d, v).Assigned?
    ensures FirstClaim(ps, d, v, i) == k
    decreases k - i
  {
    if i < k {
      FirstClaimIs(ps, d, v, i + 1, k);
    }
  }

  /** `Settle` once the first claiming position `k` is known. */
  lemma SettleAt(ps: seq<Provider>, h: Handler, d: FieldDesc, v: Value, k: nat)
    requires d.exported && k <= |ps|
    requires forall j | 0 <= j < k :: ps[j].provide(d, v).Failed?
    requires k < |ps| ==> ps[k].provide(d, v).Assigned?
    ensures Settle(ps, h, d, v) ==
      if k < |ps| then Step(ps[k].provide(d, v).value, Consulted(ps, d, k + 1), [])
      else Step(v, Consulted(ps, d, k), [UnresolvedReport(h, d)])
  {
    FirstClaimIs(ps, d, v, 0, k);
  }

  /** An unexported leaf is never shown to a provider, keeps its value and is
      never reported. */
  lemma UnexportedLeafSkipped(ps: seq<Provider>, h: Handler, d: FieldDesc, v: Value)
    requires !d.exported
    ensures Settle(ps, h, d, v) == Step(v, [], [])
  {
  }

  /** For an exported leaf, when provider `k` is the first to return nil, the
      field takes the value `k` produced, providers 0..k were asked in order,
      no later provider was asked, and nothing is reported. */
  lemma FirstSuccessWins(ps: seq<Provider>, h: Handler, d: FieldDesc, v: Value, k: nat)
    requires d.exported && k < |ps|
    requires ps[k].provide(d, v).Assigned?
    requires forall j | 0 <= j < k :: ps[j].provide(d, v).Failed?
    ensures Settle(ps, h, d, v).value == ps[k].provide(d, v).value
    ensures |Settle(ps, h, d, v).calls| == k + 1
    ensures forall j | 0 <= j <= k :: Settle(ps, h, d, v).calls[j] == Call(ps[j].name, d)
    ensures Settle(ps, h, d, v).reports == []
  {
  }

  /** For an exported leaf that every provider declines, every provider was
      asked once, in order, the field keeps its value, and exactly one report
      naming the field and its tags goes to the handler. */
  lemma AllDeclineReported(ps: seq<Provider>, h: Handler, d: FieldDesc, v: Value)
    requires d.exported
    requires forall j | 0 <= j < |ps| :: ps[j].provide(d, v).Failed?
    ensures Settle(ps, h, d, v) ==
      Step(v, Consulted(ps, d, |ps|), [Report(h, d, Unresolved(d.name, d.tags))])
  {
  }

  /** Chain order is precedence: when providers `i < j` can both set the
      field, the claim is made at or before `i`, the field takes the claiming
      provider's value, `j` is never asked and nothing is reported. */
  lemma EarlierProviderWins(ps: seq<Provider>, h: Handler, d: FieldDesc, v: Value, i: nat, j: nat)
    requires i < j < |ps|
    requires ps[i].provide(d, v).Assigned? && ps[j].provide(d, v).Assigned?
    ensures FirstClaim(ps, d, v, 0) <= i
    ensures d.exported ==> Settle(ps, h, d, v).value == ps[FirstClaim(ps, d, v, 0)].provide(d, v).value
    ensures |Settle(ps, h, d, v).calls| <= i + 1 < j + 1
    ensures Settle(ps, h, d, v).reports == []
  {
  }

  // ---------------------------------------------------------------------
  // The walk of the target (fillUp)
  // ---------------------------------------------------------------------

  /** The new fields, `Provide` calls and reports of a walk. */
  datatype Walked = Walked(fields: seq<Field>, calls: seq<Call>, reports: seq<Report>)

  /** `fillUp` over the first `n` fields of `s`: a struct field is walked in
      place; a pointer-to-struct field is set to a fresh zero value of its
      pointee type, which is then walked (whatever it held before); a leaf goes
      through the provider chain. */
  function Walk(ps: seq<Provider>, h: Handler, s: Struct, n: nat): (w: Walked)
    requires n <= |s.fields|
    ensures |w.fields| == n
    decreases s, n
  {
    if n == 0 then Walked([], [], [])
    else
      var w := Walk(ps, h, s, n - 1);
      match s.fields[n - 1]
      case StructField(name, exported, body) =>
        var inner := Walk(ps, h, body, |body.fields|);
        Walked(w.fields + [StructField(name, exported, Struct(inner.fields))],
               w.calls + inner.calls, w.reports + inner.reports)
      case StructPtrField(name, exported, zero, _) =>
        var inner := Walk(ps, h, zero, |zero.fields|);
        Walked(w.fields + [StructPtrField(name, exported, zero, Some(Struct(inner.fields)))],
               w.calls + inner.calls, w.reports + inner.reports)
      case Leaf(d, v) =>
        var st := Settle(ps, h, d, v);
        Walked(w.fields + [Leaf(d, st.value)], w.calls + st.calls, w.reports + st.reports)
  }

  /** What the walk makes of field `i` of `s` on its own: the new field, and
      the `Provide` and handler calls made while filling it. */
  function FieldStep(ps: seq<Provider>, h: Handler, s: Struct, i: nat): Walked
    requires i < |s.fields|
  {
    match s.fields[i]
    case StructField(name, exported, body) =>
      var inner := Walk(ps, h, body, |body.fields|);
      Walked([StructField(name, exported, Struct(inner.fields))], inner.calls, inner.reports)
    case StructPtrField(name, exported, zero, _) =>
      var inner := Walk(ps, h, zero, |zero.fields|);
      Walked([StructPtrField(name, exported, zero, Some(Struct(inner.fields)))], inner.calls, inner.reports)
    case Leaf(d, v) =>
      var st := Settle(ps, h, d, v);
      Walked([Leaf(d, st.value)], st.calls, st.reports)
  }

  /** The walk of `n` fields is the walk of the first `n - 1` followed by
      the step for field `n - 1`. */
  lemma WalkUnfold(ps: seq<Provider>, h: Handler, s: Struct, n: nat)
    requires 0 < n <= |s.fields|
    ensures var w, st := Walk(ps, h, s, n - 1), FieldStep(ps, h, s, n - 1);
      Walk(ps, h, s, n) == Walked(w.fields + st.fields, w.calls + st.calls, w.reports + st.reports)
  {
  }

  /** The whole walk of `s`. */
  function WalkAll(ps: seq<Provider>, h: Handler, s: Struct): Walked
  {
    Walk(ps, h, s, |s.fields|)
  }

  /** The walk of a prefix is the prefix of the walk. */
  lemma {:induction false} WalkPrefix(ps: seq<Provider>, h: Handler, a: Struct, b: Struct, n: nat)
    requires n <= |a.fields| && n <= |b.fields|
    requires a.fields[..n] == b.fields[..n]
    ensures Walk(ps, h, a, n) == Walk(ps, h, b, n)
  {
    if n > 0 {
      assert a.fields[n - 1] == a.fields[..n][n - 1];
      assert a.fields[..n - 1] == a.fields[..n][..n - 1];
      assert b.fields[..n - 1] == b.fields[..n][..n - 1];
      WalkPrefix(ps, h, a, b, n - 1);
    }
  }

  /** The leaf-by-leaf reference for a walk: every slot settled on its own,
      the results concatenated in order. */
  datatype Pass = Pass(slots: seq<Slot>, calls: seq<Call>, reports: seq<Report>)

  /** Two passes one after the other. */
  function Join(p: Pass, q: Pass): Pass
  {
    Pass(p.slots + q.slots, p.calls + q.calls, p.reports + q.reports)
  }

  /** What settling one slot contributes. */
  function SettleOne(ps: seq<Provider>, h: Handler, l: Slot): Pass
  {
    var st := Settle(ps, h, l.desc, l.value);
    Pass([Slot(l.desc, st.value)], st.calls, st.reports)
  }

  /** Each slot's contribution under `f`, joined in order. */
  function JoinAll(f: Slot -> Pass, ls: seq<Slot>): Pass
  {
    if ls == [] then Pass([], [], [])
    else Join(JoinAll(f, ls[..|ls| - 1]), f(ls[|ls| - 1]))
  }

  lemma {:induction false} JoinAllAppend(f: Slot -> Pass, a: seq<Slot>, b: seq<Slot>)
    ensures JoinAll(f, a + b) == Join(JoinAll(f, a), JoinAll(f, b))
    decreases |b|
  {
    if b == [] {
      assert a + b == a;
    } else {
      var b', l := b[..|b| - 1], b[|b| - 1];
      assert (a + b)[..|a + b| - 1] == a + b';
      assert (a + b)[|a + b| - 1] == l;
      JoinAllAppend(f, a, b');
    }
  }

  /** Every slot settled on its own, the results joined in order. */
  function SettleAll(ps: seq<Provider>, h: Handler, ls: seq<Slot>): Pass
  {
    JoinAll(l => SettleOne(ps, h, l), ls)
  }

  lemma SettleAllAppend(ps: seq<Provider>, h: Handler, a: seq<Slot>, b: seq<Slot>)
    ensures SettleAll(ps, h, a + b) == Join(SettleAll(ps, h, a), SettleAll(ps, h, b))
  {
    JoinAllAppend(l => SettleOne(ps, h, l), a, b);
  }

  lemma SettleAllSingle(ps: seq<Provider>, h: Handler, l: Slot)
    ensures SettleAll(ps, h, [l]) == SettleOne(ps, h, l)
  {
    var f := l' => SettleOne(ps, h, l');
    assert [l][..0] == [];
    assert JoinAll(f, []) == Pass([], [], []);
    assert JoinAll(f, [l]) == Join(Pass([], [], []), f(l));
  }

  /** The walk settles every leaf it meets, in depth-first declaration order
      and independently of the others: after it, the leaves the struct holds
      are the visited leaves with their settled values, and the `Provide`
      calls and reports are those of the visited leaves, in that order. */
  lemma {:induction false} WalkSettlesVisited(ps: seq<Provider>, h: Handler, s: Struct, n: nat)
    requires n <= |s.fields|
    ensures WalkAgrees(ps, h, s, n)
    decreases s, n
  {
    if n > 0 {
      WalkSettlesVisited(ps, h, s, n - 1);
      match s.fields[n - 1]
      case StructField(_, _, body) =>
        WalkSettlesVisited(ps, h, body, |body.fields|);
        WalkStepStruct(ps, h, s, n);
      case StructPtrField(_, _, zero, _) =>
        WalkSettlesVisited(ps, h, zero, |zero.fields|);
        WalkStepPtr(ps, h, s, n);
      case Leaf(d, v) =>
        WalkStepLeaf(ps, h, s, n);
    }
  }

  /** The conclusion of WalkSettlesVisited for the first `n` fields of `s`. */
  ghost predicate WalkAgrees(ps: seq<Provider>, h: Handler, s: Struct, n: nat)
    requires n <= |s.fields|
  {
    var w := Walk(ps, h, s, n);
    var p := SettleAll(ps, h, Visited(s, n));
    Leaves(Struct(w.fields), n) == p.slots && w.calls == p.calls && w.reports == p.reports
  }

  /** One more field on top of a shared prefix: the leaves of `t`'s first
      `n` fields are those of `t'`'s first `n - 1` followed by those of field
      `n - 1` of `t`. */
  lemma LeavesStepStruct(t: Struct, t': Struct, n: nat, name: string, exported: bool, body: Struct)
    requires 0 < n <= |t.fields| && n - 1 <= |t'.fields| && t.fields[..n - 1] == t'.fields[..n - 1]
    requires t.fields[n - 1] == StructField(name, exported, body)
    ensures Leaves(t, n) == Leaves(t', n - 1) + Leaves(body, |body.fields|)
  {
    LeavesPrefix(t, t', n - 1);
  }

  lemma LeavesStepPtr(t: Struct, t': Struct, n: nat, name: string, exported: bool, zero: Struct, target: Struct)
    requires 0 < n <= |t.fields| && n - 1 <= |t'.fields| && t.fields[..n - 1] == t'.fields[..n - 1]
    requires t.fields[n - 1] == StructPtrField(name, exported, zero, Some(target))
    ensures Leaves(t, n) == Leaves(t', n - 1) + Leaves(target, |target.fields|)
  {
    LeavesPrefix(t, t', n - 1);
  }

  lemma LeavesStepLeaf(t: Struct, t': Struct, n: nat, d: FieldDesc, v: Value)
    requires 0 < n <= |t.fields| && n - 1 <= |t'.fields| && t.fields[..n - 1] == t'.fields[..n - 1]
    requires t.fields[n - 1] == Leaf(d, v)
    ensures Leaves(t, n) == Leaves(t', n - 1) + [Slot(d, v)]
  {
    LeavesPrefix(t, t', n - 1);
  }

  lemma WalkStepStruct(ps: seq<Provider>, h: Handler, s: Struct, n: nat)
    requires 0 < n <= |s.fields| && s.fields[n - 1].StructField?
    requires WalkAgrees(ps, h, s, n - 1)
    requires WalkAgrees(ps, h, s.fields[n - 1].body, |s.fields[n - 1].body.fields|)
    ensures WalkAgrees(ps, h, s, n)
  {
    var name, exported, body := s.fields[n - 1].name, s.fields[n - 1].exported, s.fields[n - 1].body;
    var w, w' := Walk(ps, h, s, n), Walk(ps, h, s, n - 1);
    var iw := Walk(ps, h, body, |body.fields|);
    WalkUnfold(ps, h, s, n);
    assert FieldStep(ps, h, s, n - 1) == Walked([StructField(name, exported, Struct(iw.fields))], iw.calls, iw.reports);
    assert w.fields[..n - 1] == w'.fields[..n - 1];
    LeavesStepStruct(Struct(w.fields), Struct(w'.fields), n, name, exported, Struct(iw.fields));
    assert Visited(s, n) == Visited(s, n - 1) + Visited(body, |body.fields|);
    SettleAllAppend(ps, h, Visited(s, n - 1), Visited(body, |body.fields|));
  }

  lemma WalkStepPtr(ps: seq<Provider>, h: Handler, s: Struct, n: nat)
    requires 0 < n <= |s.fields| && s.fields[n - 1].StructPtrField?
    requires WalkAgrees(ps, h, s, n - 1)
    requires WalkAgrees(ps, h, s.fields[n - 1].zero, |s.fields[n - 1].zero.fields|)
    ensures WalkAgrees(ps, h, s, n)
  {
    var name, exported, zero := s.fields[n - 1].name, s.fields[n - 1].exported, s.fields[n - 1].zero;
    var w, w' := Walk(ps, h, s, n), Walk(ps, h, s, n - 1);
    var iw := Walk(ps, h, zero, |zero.fields|);
    WalkUnfold(ps, h, s, n);
    assert FieldStep(ps, h, s, n - 1) ==
      Walked([StructPtrField(name, exported, zero, Some(Struct(iw.fields)))], iw.calls, iw.reports);
    assert w.fields[..n - 1] == w'.fields[..n - 1];
    LeavesStepPtr(Struct(w.fields), Struct(w'.fields), n, name, exported, zero, Struct(iw.fields));
    assert Visited(s, n) == Visited(s, n - 1) + Visited(zero, |zero.fields|);
    SettleAllAppend(ps, h, Visited(s, n - 1), Visited(zero, |zero.fields|));
  }

  lemma WalkStepLeaf(ps: seq<Provider>, h: Handler, s: Struct, n: nat)
    requires 0 < n <= |s.fields| && s.fields[n - 1].Leaf?
    requires WalkAgrees(ps, h, s, n - 1)
    ensures WalkAgrees(ps, h, s, n)
  {
    var d, v := s.fields[n - 1].desc, s.fields[n - 1].value;
    var w, w' := Walk(ps, h, s, n), Walk(ps, h, s, n - 1);
    var st := Settle(ps, h, d, v);
    WalkUnfold(ps, h, s, n);
    assert FieldStep(ps, h, s, n - 1) == Walked([Leaf(d, st.value)], st.calls, st.reports);
    assert w.fields[..n - 1] == w'.fields[..n - 1];
    LeavesStepLeaf(Struct(w.fields), Struct(w'.fields), n, d, st.value);
    assert Visited(s, n) == Visited(s, n - 1) + [Slot(d, v)];
    SettleAllSingle(ps, h, Slot(d, v));
    SettleAllAppend(ps, h, Visited(s, n - 1), [Slot(d, v)]);
  }

  /** Only exported leaves met by the walk are shown to providers. */
  lemma {:induction false} SettleAllConsultsExported(ps: seq<Provider>, h: Handler, ls: seq<Slot>)
    ensures forall c | c in SettleAll(ps, h, ls).calls ::
      c.field.exported && exists i :: 0 <= i < |ls| && ls[i].desc == c.field
  {
    if ls != [] {
      var init := ls[..|ls| - 1];
      SettleAllConsultsExported(ps, h, init);
      forall c | c in SettleAll(ps, h, ls).calls
        ensures c.field.exported && exists i :: 0 <= i < |ls| && ls[i].desc == c.field
      {
        if c in SettleAll(ps, h, init).calls {
          var i :| 0 <= i < |init| && init[i].desc == c.field;
          assert ls[i] == init[i];
        } else {
          assert ls[|ls| - 1].desc == c.field;
        }
      }
    }
  }

  /** The leaves no provider claims: exported and declined by every provider. */
  function Unclaimed(ps: seq<Provider>, ls: seq<Slot>): (u: seq<Slot>)
    ensures forall l | l in u ::
      l in ls && l.desc.exported &&
      forall j | 0 <= j < |ps| :: ps[j].provide(l.desc, l.value).Failed?
  {
    if ls == [] then []
    else
      var l := ls[|ls| - 1];
      Unclaimed(ps, ls[..|ls| - 1]) +
      (if l.desc.exported && FirstClaim(ps, l.desc, l.value, 0) == |ps| then [l] else [])
  }

  /** Conversely, every exported leaf that every provider declines is listed. */
  lemma {:induction false} UnclaimedComplete(ps: seq<Provider>, ls: seq<Slot>)
    ensures forall i | 0 <= i < |ls| && ls[i].desc.exported &&
      (forall j | 0 <= j < |ps| :: ps[j].provide(ls[i].desc, ls[i].value).Failed?) ::
      ls[i] in Unclaimed(ps, ls)
  {
    if ls != [] {
      var init := ls[..|ls| - 1];
      UnclaimedComplete(ps, init);
      forall i | 0 <= i < |ls| && ls[i].desc.exported &&
        (forall j | 0 <= j < |ps| :: ps[j].provide(ls[i].desc, ls[i].value).Failed?)
        ensures ls[i] in Unclaimed(ps, ls)
      {
        if i < |ls| - 1 {
          assert ls[i] == init[i];
        } else {
          FirstClaimIs(ps, ls[i].desc, ls[i].value, 0, |ps|);
        }
      }
    }
  }

  /** The handler is called exactly once per unclaimed leaf, in walk order,
      with the message naming the field and its tags, and for nothing else. */
  lemma {:induction false} ReportsAreUnclaimedLeaves(ps: seq<Provider>, h: Handler, ls: seq<Slot>)
    ensures var r := SettleAll(ps, h, ls).reports; var u := Unclaimed(ps, ls);
      |r| == |u| &&
      forall i | 0 <= i < |r| :: r[i] == Report(h, u[i].desc, Unresolved(u[i].desc.name, u[i].desc.tags))
  {
    if ls != [] {
      ReportsAreUnclaimedLeaves(ps, h, ls[..|ls| - 1]);
    }
  }

  /** After the walk every pointer-to-struct field, at every depth, is non-nil. */
  lemma {:induction false} WalkAllocates(ps: seq<Provider>, h: Handler, s: Struct, n: nat)
    requires n <= |s.fields|
    ensures Allocated(Struct(Walk(ps, h, s, n).fields))
    decreases s, n
  {
    if n > 0 {
      var w := Walk(ps, h, s, n);
      WalkAllocates(ps, h, s, n - 1);
      assert forall i | 0 <= i < n - 1 :: w.fields[i] == Walk(ps, h, s, n - 1).fields[i];
      match s.fields[n - 1]
      case StructField(_, _, body) => WalkAllocates(ps, h, body, |body.fields|);
      case StructPtrField(_, _, zero, _) => WalkAllocates(ps, h, zero, |zero.fields|);
      case Leaf(_, _) =>
    }
  }

  /** The walk fills fields without changing the layout: field `i` keeps its
      kind of field, its name and exported-ness, a pointer field its pointee
      type, and a leaf its descriptor. */
  lemma {:induction false} WalkKeepsLayout(ps: seq<Provider>, h: Handler, s: Struct, n: nat, i: nat)
    requires i < n <= |s.fields|
    ensures var g := Walk(ps, h, s, n).fields[i];
      match s.fields[i]
      case StructField(name, exported, _) => g.StructField? && g.name == name && g.exported == exported
      case StructPtrField(name, exported, zero, _) =>
        g.StructPtrField? && g.name == name && g.exported == exported && g.zero == zero
      case Leaf(d, _) => g.Leaf? && g.desc == d
    decreases n
  {
    if i < n - 1 {
      WalkKeepsLayout(ps, h, s, n - 1, i);
      assert Walk(ps, h, s, n).fields[i] == Walk(ps, h, s, n - 1).fields[i];
    }
  }

  /** A walked well-formed struct is still well-formed, so it can be walked
      again. */
  lemma {:induction false} WalkPreservesWellFormed(ps: seq<Provider>, h: Handler, s: Struct, n: nat)
    requires n <= |s.fields| && WellFormed(s)
    ensures WellFormed(Struct(Walk(ps, h, s, n).fields))
    decreases s, n
  {
    if n > 0 {
      var w := Walk(ps, h, s, n);
      WalkPreservesWellFormed(ps, h, s, n - 1);
      assert forall i | 0 <= i < n - 1 :: w.fields[i] == Walk(ps, h, s, n - 1).fields[i];
      match s.fields[n - 1]
      case StructField(_, _, body) => WalkPreservesWellFormed(ps, h, body, |body.fields|);
      case StructPtrField(_, _, zero, _) =>
      case Leaf(_, _) =>
    }
  }

  /** What pointer fields held before the walk has no effect on it: they are
      overwritten with fresh zero values, non-nil or not. */
  lemma {:induction false} WalkIgnoresTargets(ps: seq<Provider>, h: Handler, s: Struct, n: nat)
    requires n <= |s.fields|
    ensures Walk(ps, h, Struct(Detached(s, n)), n) == Walk(ps, h, s, n)
    decreases s, n
  {
    if n > 0 {
      var dn := Detached(s, n);
      WalkIgnoresTargets(ps, h, s, n - 1);
      assert dn[..n - 1] == Detached(s, n - 1)[..n - 1];
      WalkPrefix(ps, h, Struct(dn), Struct(Detached(s, n - 1)), n - 1);
      match s.fields[n - 1]
      case StructField(_, _, body) => WalkIgnoresTargets(ps, h, body, |body.fields|);
      case StructPtrField(_, _, _, _) =>
      case Leaf(_, _) =>
    }
  }

  // ---------------------------------------------------------------------
  // Provider registration (the loop of InitValues)
  // ---------------------------------------------------------------------

  /** The names of providers i..k-1, in order. */
  function NameSeq(ps: seq<Provider>, i: nat, k: nat): seq<string>
    requires i <= k <= |ps|
    decreases k - i
  {
    if i == k then [] else [ps[i].name] + NameSeq(ps, i + 1, k)
  }

  /** The names of providers i..k-1, as a set. */
  function NameSet(ps: seq<Provider>, i: nat, k: nat): set<string>
    requires i <= k <= |ps|
    decreases k - i
  {
    if i == k then {} else {ps[i].name} + NameSet(ps, i + 1, k)
  }

  /** The first position, from `i` on, where registration stops: a name
      already registered (in `reg` or earlier in the loop) or a failing
      `Init`; |ps| when every provider registers and initialises. */
  function Stop(ps: seq<Provider>, reg: set<string>, root: Struct, i: nat): (k: nat)
    requires i <= |ps|
    ensures i <= k <= |ps|
    ensures forall j | i <= j < k :: ps[j].name !in reg + NameSet(ps, i, j) && ps[j].init(root) == None
    ensures k < |ps| ==> ps[k].name in reg + NameSet(ps, i, k) || ps[k].init(root).Some?
    decreases |ps| - i
  {
    if i == |ps| then i
    else if ps[i].name in reg || ps[i].init(root).Some? then i
    else Stop(ps, reg + {ps[i].name}, root, i + 1)
  }

  /** The outcome of the loop: the error it returns (None when it completes),
      the registered names and the names of the providers whose `Init` ran. */
  datatype Registration = Registration(err: Option<Error>, registered: set<string>, inited: seq<string>)

  /** The loop at configurator.go:56-65 from provider `i` on, with the names
      registered so far and the `Init` calls made so far. Names already
      registered stay registered, and the only errors it returns are the
      collision and an `Init` failure. */
  function Register(ps: seq<Provider>, reg: set<string>, root: Struct, i: nat, inited: seq<string>): (r: Registration)
    requires i <= |ps|
    ensures reg <= r.registered
    ensures r.err.Some? ==> r.err.value.ProviderNameCollision? || r.err.value.InitFailed?
    decreases |ps| - i
  {
    if i == |ps| then Registration(None, reg, inited)
    else
      var name := ps[i].name;
      if name in reg then Registration(Some(ProviderNameCollision), reg, inited)
      else
        match ps[i].init(root)
        case Some(e) => Registration(Some(InitFailed(name, e)), reg + {name}, inited + [name])
        case None => Register(ps, reg + {name}, root, i + 1, inited + [name])
  }

  /** Registration that meets no stop completes, having registered and
      initialised every provider from `i` on, in order. */
  lemma {:induction false} RegisterCompletes(ps: seq<Provider>, reg: set<string>, root: Struct, i: nat, inited: seq<string>)
    requires i <= |ps| && Stop(ps, reg, root, i) == |ps|
    ensures Register(ps, reg, root, i, inited) ==
      Registration(None, reg + NameSet(ps, i, |ps|), inited + NameSeq(ps, i, |ps|))
    decreases |ps| - i
  {
    if i < |ps| {
      var name := ps[i].name;
      RegisterCompletes(ps, reg + {name}, root, i + 1, inited + [name]);
      assert reg + NameSet(ps, i, |ps|) == reg + {name} + NameSet(ps, i + 1, |ps|);
      assert inited + NameSeq(ps, i, |ps|) == inited + [name] + NameSeq(ps, i + 1, |ps|);
    }
  }

  /** Registration that stops at an already registered name returns the
      collision, having registered and initialised exactly the providers
      before it. */
  lemma {:induction false} RegisterCollides(ps: seq<Provider>, reg: set<string>, root: Struct, i: nat, inited: seq<string>)
    requires i <= |ps|
    requires var k := Stop(ps, reg, root, i); k < |ps| && ps[k].name in reg + NameSet(ps, i, k)
    ensures var k := Stop(ps, reg, root, i);
      Register(ps, reg, root, i, inited) ==
      Registration(Some(ProviderNameCollision), reg + NameSet(ps, i, k), inited + NameSeq(ps, i, k))
    decreases |ps| - i
  {
    var name := ps[i].name;
    if name !in reg && ps[i].init(root).None? {
      var k := Stop(ps, reg, root, i);
      assert reg + NameSet(ps, i, k) == reg + {name} + NameSet(ps, i + 1, k);
      RegisterCollides(ps, reg + {name}, root, i + 1, inited + [name]);
      assert inited + NameSeq(ps, i, k) == inited + [name] + NameSeq(ps, i + 1, k);
    }
  }

  /** Registration that stops at a failing `Init` returns that error together
      with the provider's name, having registered and initialised the
      providers up to and including it and none after it. */
  lemma {:induction false} RegisterInitFails(ps: seq<Provider>, reg: set<string>, root: Struct, i: nat, inited: seq<string>)
    requires i <= |ps|
    requires var k := Stop(ps, reg, root, i); k < |ps| && ps[k].name !in reg + NameSet(ps, i, k)
    ensures var k := Stop(ps, reg, root, i);
      ps[k].init(root).Some? &&
      Register(ps, reg, root, i, inited) ==
      Registration(Some(InitFailed(ps[k].name, ps[k].init(root).value)),
                   reg + NameSet(ps, i, k + 1), inited + NameSeq(ps, i, k + 1))
    decreases |ps| - i
  {
    var name := ps[i].name;
    var k := Stop(ps, reg, root, i);
    if name !in reg && ps[i].init(root).None? {
      assert reg + NameSet(ps, i, k) == reg + {name} + NameSet(ps, i + 1, k);
      RegisterInitFails(ps, reg + {name}, root, i + 1, inited + [name]);
      assert NameSet(ps, i, k + 1) == {name} + NameSet(ps, i + 1, k + 1);
      assert NameSeq(ps, i, k + 1) == [name] + NameSeq(ps, i + 1, k + 1);
    } else {
      assert k == i;
      assert NameSet(ps, i, i + 1) == {name};
      assert NameSeq(ps, i, i + 1) == [name];
    }
  }

  /** Registration stops at `Stop`, in exactly one of three ways: it
      completes; it meets a name already registered; or an `Init` fails. */
  lemma RegisterStops(ps: seq<Provider>, reg: set<string>, root: Struct, i: nat, inited: seq<string>)
    requires i <= |ps|
    ensures var k := Stop(ps, reg, root, i); var r := Register(ps, reg, root, i, inited);
      (k == |ps| ==>
         r == Registration(None, reg + NameSet(ps, i, k), inited + NameSeq(ps, i, k))) &&
      (k < |ps| && ps[k].name in reg + NameSet(ps, i, k) ==>
         r == Registration(Some(ProviderNameCollision), reg + NameSet(ps, i, k), inited + NameSeq(ps, i, k))) &&
      (k < |ps| && ps[k].name !in reg + NameSet(ps, i, k) ==>
         ps[k].init(root).Some? &&
         r == Registration(Some(InitFailed(ps[k].name, ps[k].init(root).value)),
                           reg + NameSet(ps, i, k + 1), inited + NameSeq(ps, i, k + 1)))
  {
    var k := Stop(ps, reg, root, i);
    if k == |ps| {
      RegisterCompletes(ps, reg, root, i, inited);
    } else if ps[k].name in reg + NameSet(ps, i, k) {
      RegisterCollides(ps, reg, root, i, inited);
    } else {
      RegisterInitFails(ps, reg, root, i, inited);
    }
  }

  // ---------------------------------------------------------------------
  // The whole call (InitValues)
  // ---------------------------------------------------------------------

  /** The outcome of `InitValues`: its result, the target afterwards, the
      registered names afterwards, and the `Init`, `Provide` and `onErrorFn`
      calls it makes. */
  datatype Run = Run(err: Option<Error>, target: Target, registered: set<string>,
                     inited: seq<string>, calls: seq<Call>, reports: seq<Report>)

  /** `InitValues` on `target` with the names `reg` already registered: a
      call that fails leaves the target as it was and asks no provider for a
      value; one that succeeds had a pointer target and a non-empty list, and
      called every provider's `Init`; registered names are never removed. */
  function InitValuesRun(target: Target, ps: seq<Provider>, reg: set<string>, h: Handler): (r: Run)
    ensures r.err.Some? ==> r.target == target && r.calls == [] && r.reports == []
    ensures r.err.None? ==> target.Ptr? && |ps| > 0 && r.target.Ptr?
    ensures reg <= r.registered
  {
    match target
    case NonPtr => Run(Some(NotAPointer), target, reg, [], [], [])
    case Ptr(root) =>
      if |ps| == 0 then Run(Some(NoProviders), target, reg, [], [], [])
      else
        var r := Register(ps, reg, root, 0, []);
        if r.err.Some? then Run(r.err, target, r.registered, r.inited, [], [])
        else
          var w := WalkAll(ps, h, root);
          Run(None, Ptr(Struct(w.fields)), r.registered, r.inited, w.calls, w.reports)
  }

  /** A target that is not a pointer, or an empty provider list, is rejected
      before any `Init` runs and before anything is registered or changed. */
  lemma PreconditionsChecked(target: Target, ps: seq<Provider>, reg: set<string>, h: Handler)
    requires target.NonPtr? || ps == []
    ensures var run := InitValuesRun(target, ps, reg, h);
      run == Run(Some(if target.NonPtr? then NotAPointer else NoProviders), target, reg, [], [], [])
  {
  }

  /** A name collision is reported before the walk: the target is unchanged,
      nothing is shown to a provider or reported, and exactly the providers
      before the colliding one were registered and initialised. */
  lemma CollisionLeavesTargetUntouched(target: Target, ps: seq<Provider>, reg: set<string>, h: Handler)
    requires target.Ptr?
    requires InitValuesRun(target, ps, reg, h).err == Some(ProviderNameCollision)
    ensures var run := InitValuesRun(target, ps, reg, h); var k := Stop(ps, reg, target.root, 0);
      k < |ps| && ps[k].name in reg + NameSet(ps, 0, k) &&
      run.target == target && run.calls == [] && run.reports == [] &&
      run.inited == NameSeq(ps, 0, k) && run.registered == reg + NameSet(ps, 0, k)
  {
    RegisterStops(ps, reg, target.root, 0, []);
  }

  /** An `Init` failure is returned with that provider's name and cause; no
      later provider is registered or initialised and the target is unchanged. */
  lemma InitFailureNamesProvider(target: Target, ps: seq<Provider>, reg: set<string>, h: Handler)
    requires target.Ptr?
    requires InitValuesRun(target, ps, reg, h).err.Some?
    requires InitValuesRun(target, ps, reg, h).err.value.InitFailed?
    ensures var run := InitValuesRun(target, ps, reg, h); var k := Stop(ps, reg, target.root, 0);
      k < |ps| && ps[k].init(target.root) == Some(run.err.value.cause) &&
      run.err.value.provider == ps[k].name &&
      run.target == target && run.calls == [] && run.reports == [] &&
      run.inited == NameSeq(ps, 0, k + 1) && run.registered == reg + NameSet(ps, 0, k + 1)
  {
    RegisterStops(ps, reg, target.root, 0, []);
  }

  /** On success every provider had a name not registered before and its
      `Init` called once, in list order, and returned nil; the target is the
      walked struct. */
  lemma SuccessInitialisesAll(target: Target, ps: seq<Provider>, reg: set<string>, h: Handler)
    requires InitValuesRun(target, ps, reg, h).err == None
    ensures var run := InitValuesRun(target, ps, reg, h);
      target.Ptr? && |ps| > 0 &&
      (forall j | 0 <= j < |ps| :: ps[j].name !in reg + NameSet(ps, 0, j) && ps[j].init(target.root) == None) &&
      run.inited == NameSeq(ps, 0, |ps|) && run.registered == reg + NameSet(ps, 0, |ps|) &&
      run.target == Ptr(Struct(WalkAll(ps, h, target.root).fields))
  {
    RegisterSucceeds(ps, reg, target.root);
    RegisterCompletes(ps, reg, target.root, 0, []);
  }

  /** Registration from the start that returns no error met no stop. */
  lemma RegisterSucceeds(ps: seq<Provider>, reg: set<string>, root: Struct)
    requires Register(ps, reg, root, 0, []).err == None
    ensures Stop(ps, reg, root, 0) == |ps|
  {
    RegisterStops(ps, reg, root, 0, []);
  }

  lemma {:induction false} NameSetHas(ps: seq<Provider>, i: nat, j: nat, k: nat)
    requires i <= j < k <= |ps|
    ensures ps[j].name in NameSet(ps, i, k)
    decreases k - i
  {
    if i < j {
      NameSetHas(ps, i + 1, j, k);
    }
  }

  /** Two providers with the same name, at any positions, make the call fail
      before the walk: the target is unchanged and no provider is asked for
      a value. */
  lemma DuplicateNamesFail(target: Target, ps: seq<Provider>, reg: set<string>, h: Handler, i: nat, j: nat)
    requires i < j < |ps| && ps[i].name == ps[j].name
    ensures var run := InitValuesRun(target, ps, reg, h);
      run.err.Some? && run.target == target && run.calls == [] && run.reports == []
  {
    if InitValuesRun(target, ps, reg, h).err == None {
      SuccessInitialisesAll(target, ps, reg, h);
      NameSetHas(ps, 0, i, j);
      assert false;
    }
  }

  /** `registeredTags` is never cleared: a second call on the same
      configurator, once the first got past the precondition checks, always
      fails with the collision before any `Init` runs and leaves the target
      as the first call left it. */
  lemma SecondRunCollides(target: Target, ps: seq<Provider>, reg: set<string>, h: Handler)
    requires target.Ptr? && ps != []
    ensures var first := InitValuesRun(target, ps, reg, h);
      var second := InitValuesRun(first.target, ps, first.registered, h);
      second == Run(Some(ProviderNameCollision), first.target, first.registered, [], [], [])
  {
    RegisterStops(ps, reg, target.root, 0, []);
    var k := Stop(ps, reg, target.root, 0);
    if k > 0 || ps[0].name !in reg {
      assert ps[0].name in NameSet(ps, 0, if k < |ps| then k + 1 else k);
    }
  }
}
