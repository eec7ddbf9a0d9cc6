/** Allocation-effect inference and the check of allocation-free regions
    (bootstrap/driver_effects.lisp). */
module Effects {

  /** What the passes read of a signature. Calls and region calls list the callees that the
      scans of the function's body visit, in that order; callees count from one. */
  datatype Signature = Signature(name: nat, imported: bool, analysable: bool, calls: seq<nat>, regionCalls: seq<nat>)

  /** The first `count` signatures belong to the unit being certified. */
  datatype Unit = Unit(signatures: seq<Signature>, count: nat)

  ghost predicate WellFormed(u: Unit) {
    && u.count <= |u.signatures|
    && (forall f, t :: 0 <= f < |u.signatures| && t in u.signatures[f].calls ==> 1 <= t <= |u.signatures|)
    && (forall f, t :: 0 <= f < |u.signatures| && t in u.signatures[f].regionCalls ==> 1 <= t <= |u.signatures|)
  }

  predicate Defined(u: Unit, f: nat) {
    f < u.count && f < |u.signatures| && !u.signatures[f].imported
  }

  /** The functions that f calls, as far as the unit knows its body. */
  function Calls(u: Unit, f: nat): seq<nat> {
    if Defined(u, f) then u.signatures[f].calls else []
  }

  // ---------- Reference: reaching an uncertified function ----------

  /** p is a call path that ends in a function without the promise. */
  ghost predicate LeadsToUnsafe(u: Unit, safe: seq<bool>, p: seq<nat>)
    requires |safe| == |u.signatures|
    decreases |p|
  {
    && |p| > 0 && p[0] < |safe|
    && if |p| == 1 then !safe[p[0]] else p[1] + 1 in Calls(u, p[0]) && LeadsToUnsafe(u, safe, p[1..])
  }

  ghost predicate Tainted(u: Unit, safe: seq<bool>, f: nat)
    requires |safe| == |u.signatures|
  {
    exists p :: LeadsToUnsafe(u, safe, p) && p[0] == f
  }

  lemma UnsafeIsTainted(u: Unit, safe: seq<bool>, f: nat)
    requires |safe| == |u.signatures| && f < |safe| && !safe[f]
    ensures Tainted(u, safe, f)
  {
    assert LeadsToUnsafe(u, safe, [f]);
  }

  lemma CallerIsTainted(u: Unit, safe: seq<bool>, f: nat, g: nat)
    requires |safe| == |u.signatures| && f < |safe| && g + 1 in Calls(u, f) && Tainted(u, safe, g)
    ensures Tainted(u, safe, f)
  {
    var p :| LeadsToUnsafe(u, safe, p) && p[0] == g;
    assert ([f] + p)[1..] == p;
    assert LeadsToUnsafe(u, safe, [f] + p);
  }

  /** A set of functions, included in the initial promises, whose members call only members. */
  ghost predicate Stable(u: Unit, safe: seq<bool>, kept: seq<bool>)
    requires |safe| == |u.signatures|
  {
    && |kept| == |safe|
    && (forall f :: 0 <= f < |kept| && kept[f] ==> safe[f])
    && (forall f, t :: 0 <= f < |kept| && kept[f] && t in Calls(u, f) ==> 1 <= t <= |kept| && kept[t - 1])
  }

  lemma {:induction false} StableAvoidsPath(u: Unit, safe: seq<bool>, kept: seq<bool>, p: seq<nat>)
    requires |safe| == |u.signatures| && Stable(u, safe, kept) && LeadsToUnsafe(u, safe, p)
    ensures !kept[p[0]]
    decreases |p|
  {
    if |p| > 1 {
      StableAvoidsPath(u, safe, kept, p[1..]);
    }
  }

  /** Every stable set is free of taint: the untainted functions are the greatest one. */
  lemma StableIsUntainted(u: Unit, safe: seq<bool>, kept: seq<bool>, f: nat)
    requires |safe| == |u.signatures| && Stable(u, safe, kept) && f < |kept| && kept[f]
    ensures !Tainted(u, safe, f)
  {
    if Tainted(u, safe, f) {
      var p :| LeadsToUnsafe(u, safe, p) && p[0] == f;
      StableAvoidsPath(u, safe, kept, p);
    }
  }

  /** Cleared so far, and only functions that reach an uncertified one. */
  ghost predicate Between(u: Unit, safe: seq<bool>, flags: seq<bool>)
    requires |safe| == |u.signatures|
  {
    && |flags| == |safe|
    && (forall f :: 0 <= f < |flags| && flags[f] ==> safe[f])
    && (forall f :: 0 <= f < |flags| && !flags[f] ==> Tainted(u, safe, f))
  }

  /** A function that the unit does not define keeps its flag. */
  lemma UndefinedStays(u: Unit, safe: seq<bool>, flags: seq<bool>)
    requires |safe| == |u.signatures| && Between(u, safe, flags)
    ensures forall f :: 0 <= f < |flags| && !Defined(u, f) ==> flags[f] == safe[f]
  {
    forall f | 0 <= f < |flags| && !Defined(u, f) && Tainted(u, safe, f)
      ensures !safe[f]
    {
      var p :| LeadsToUnsafe(u, safe, p) && p[0] == f;
    }
  }

  ghost predicate Exact(u: Unit, safe: seq<bool>, flags: seq<bool>)
    requires |safe| == |u.signatures|
  {
    |flags| == |safe| && forall f :: 0 <= f < |flags| ==> (flags[f] <==> !Tainted(u, safe, f))
  }

  lemma StartsBetween(u: Unit, safe: seq<bool>)
    requires |safe| == |u.signatures|
    ensures Between(u, safe, safe)
  {
    forall f | 0 <= f < |safe| && !safe[f]
      ensures Tainted(u, safe, f)
    {
      UnsafeIsTainted(u, safe, f);
    }
  }

  lemma StableBetweenIsExact(u: Unit, safe: seq<bool>, flags: seq<bool>)
    requires |safe| == |u.signatures| && Between(u, safe, flags) && Stable(u, safe, flags)
    ensures Exact(u, safe, flags)
  {
    forall f | 0 <= f < |flags|
      ensures flags[f] <==> !Tainted(u, safe, f)
    {
      if flags[f] {
        StableIsUntainted(u, safe, flags, f);
      }
    }
  }

  /** A renaming that respects promises and calls respects taint. */
  lemma {:induction false} RenamedPath(u: Unit, safe: seq<bool>, u': Unit, safe': seq<bool>, name: seq<nat>,
                                       p: seq<nat>)
    returns (q: seq<nat>)
    requires |safe| == |u.signatures| == |name| && |safe'| == |u'.signatures|
    requires forall f :: 0 <= f < |name| ==> name[f] < |safe'| && safe'[name[f]] == safe[f]
    requires forall f, g :: 0 <= f < |name| && 0 <= g < |name| && g + 1 in Calls(u, f) ==>
      name[g] + 1 in Calls(u', name[f])
    requires LeadsToUnsafe(u, safe, p)
    ensures LeadsToUnsafe(u', safe', q) && q[0] == name[p[0]]
    decreases |p|
  {
    if |p| == 1 {
      q := [name[p[0]]];
    } else {
      q := RenamedPath(u, safe, u', safe', name, p[1..]);
      q := [name[p[0]]] + q;
      assert q[1..][0] == name[p[1]];
    }
  }

  lemma RenamedTaint(u: Unit, safe: seq<bool>, u': Unit, safe': seq<bool>, name: seq<nat>, f: nat)
    requires |safe| == |u.signatures| == |name| && |safe'| == |u'.signatures| && f < |name|
    requires forall f :: 0 <= f < |name| ==> name[f] < |safe'| && safe'[name[f]] == safe[f]
    requires forall f, g :: 0 <= f < |name| && 0 <= g < |name| && g + 1 in Calls(u, f) ==>
      name[g] + 1 in Calls(u', name[f])
    ensures Tainted(u, safe, f) ==> Tainted(u', safe', name[f])
  {
    if Tainted(u, safe, f) {
      var p :| LeadsToUnsafe(u, safe, p) && p[0] == f;
      var q := RenamedPath(u, safe, u', safe', name, p);
    }
  }

  /** The unit u' lists the signatures of u in another order: f is at name[f], and back is the
      inverse of name. */
  ghost predicate Reordered(u: Unit, safe: seq<bool>, u': Unit, safe': seq<bool>, name: seq<nat>, back: seq<nat>) {
    && |safe| == |safe'| == |u.signatures| == |u'.signatures| == |name| == |back|
    && (forall f :: 0 <= f < |name| ==> name[f] < |name| && back[name[f]] == f)
    && (forall f :: 0 <= f < |back| ==> back[f] < |back| && name[back[f]] == f)
    && (forall f :: 0 <= f < |name| ==> safe'[name[f]] == safe[f])
    && (forall f, g :: 0 <= f < |name| && 0 <= g < |name| ==>
          (g + 1 in Calls(u, f) <==> name[g] + 1 in Calls(u', name[f])))
  }

  lemma ReorderedBack(u: Unit, safe: seq<bool>, u': Unit, safe': seq<bool>, name: seq<nat>, back: seq<nat>)
    requires Reordered(u, safe, u', safe', name, back)
    ensures Reordered(u', safe', u, safe, back, name)
  {
    forall f, g | 0 <= f < |back| && 0 <= g < |back|
      ensures g + 1 in Calls(u', f) <==> back[g] + 1 in Calls(u, back[f])
    {
      assert name[back[f]] == f && name[back[g]] == g;
    }
  }

  /** Although flags are cleared in place, the flags that certification ends with do not
      depend on the order of the signatures. */
  lemma OrderDoesNotMatter(u: Unit, safe: seq<bool>, flags: seq<bool>, u': Unit, safe': seq<bool>, flags': seq<bool>,
                           name: seq<nat>, back: seq<nat>, f: nat)
    requires Reordered(u, safe, u', safe', name, back) && f < |name|
    requires Exact(u, safe, flags) && Exact(u', safe', flags')
    ensures flags'[name[f]] == flags[f]
  {
    RenamedTaint(u, safe, u', safe', name, f);
    ReorderedBack(u, safe, u', safe', name, back);
    RenamedTaint(u', safe', u, safe, back, name[f]);
  }

  // ---------- The scans ----------

  predicate Has(flags: seq<bool>, t: nat) {
    1 <= t <= |flags| && flags[t - 1]
  }

  /** t is the first of these callees without the promise. */
  ghost predicate FirstWithout(flags: seq<bool>, calls: seq<nat>, t: nat) {
    exists k :: 0 <= k < |calls| && calls[k] == t && !Has(flags, t) && forall j :: 0 <= j < k ==> Has(flags, calls[j])
  }

  lemma FirstInRest(flags: seq<bool>, calls: seq<nat>, t: nat)
    requires calls != [] && Has(flags, calls[0]) && FirstWithout(flags, calls[1..], t)
    ensures FirstWithout(flags, calls, t)
  {
    hide Has;
    var rest := calls[1..];
    var k :| 0 <= k < |rest| && rest[k] == t && !Has(flags, t) && forall j :: 0 <= j < k ==> Has(flags, rest[j]);
    assert calls[k + 1] == t && forall j :: 0 < j < k + 1 ==> calls[j] == rest[j - 1];
  }

  /** The first callee without the promise, or zero. */
  function UnsafeCall(flags: seq<bool>, calls: seq<nat>): (t: nat)
    requires forall t :: t in calls ==> 1 <= t <= |flags|
    ensures t != 0 ==> t in calls && !flags[t - 1] && FirstWithout(flags, calls, t)
    ensures t == 0 ==> forall x :: x in calls ==> flags[x - 1]
  {
    if calls == [] then 0
    else
      assert calls[0] in calls && forall x :: x in calls <==> x == calls[0] || x in calls[1..];
      if !flags[calls[0] - 1] then calls[0]
      else
        var t := UnsafeCall(flags, calls[1..]);
        if t != 0 then FirstInRest(flags, calls, t); t else 0
  }

  /** Inside regions a callee's promise counts only once it has been inferred. */
  function Trusted(flags: seq<bool>, ready: seq<bool>): (r: seq<bool>)
    requires |flags| == |ready|
    ensures |r| == |flags| && forall i :: 0 <= i < |r| ==> r[i] == (flags[i] && ready[i])
  {
    seq(|flags|, i requires 0 <= i < |flags| => flags[i] && ready[i])
  }

  // ---------- The passes ----------

  ghost function KeptSet(u: Unit, flags: seq<bool>): set<nat> {
    set f: nat | f < |flags| && Defined(u, f) && flags[f]
  }

  class Certifier {
    const u: Unit
    var allocationFree: seq<bool>
    var effectReady: seq<bool>
    var effectsChanged: bool
    var index: nat
    var phase: nat
    var form: nat

    ghost predicate Valid()
      reads `allocationFree, `effectReady
    {
      WellFormed(u) && |allocationFree| == |effectReady| == |u.signatures|
    }

    constructor (u: Unit, allocationFree: seq<bool>, effectReady: seq<bool>, phase: nat)
      requires WellFormed(u) && |allocationFree| == |effectReady| == |u.signatures|
      ensures Valid() && this.u == u && this.allocationFree == allocationFree
      ensures this.effectReady == effectReady && this.phase == phase
    {
      this.u, this.allocationFree, this.effectReady := u, allocationFree, effectReady;
      this.phase, index, form, effectsChanged := phase, 0, 0, false;
    }

    /** One function: keep the promise unless some call lacks it right now. */
    method InferFunctionEffect(ghost safe: seq<bool>) returns (ok: bool)
      requires Valid() && phase == 0 && index < u.count && |safe| == |u.signatures|
      requires Between(u, safe, allocationFree)
      modifies `allocationFree, `effectsChanged, `phase
      ensures Valid() && Between(u, safe, allocationFree)
      ensures ok <==> phase == 0
      ensures !ok ==> phase == 6 && Defined(u, index) && !u.signatures[index].analysable
      ensures !ok ==> allocationFree == old(allocationFree)
      ensures (allocationFree == old(allocationFree) && effectsChanged == old(effectsChanged)) ||
              (effectsChanged && KeptSet(u, allocationFree) < KeptSet(u, old(allocationFree)))
      ensures !ok ==> allocationFree[index]
      ensures ok && Defined(u, index) && allocationFree[index] ==> u.signatures[index].analysable
      ensures ok && effectsChanged == old(effectsChanged) && allocationFree == old(allocationFree) ==>
        allocationFree[index] ==> forall t :: t in Calls(u, index) ==> allocationFree[t - 1]
    {
      var signature := u.signatures[index];
      if signature.imported {
        return true;
      }
      if !allocationFree[index] {
        return true;
      }
      if !signature.analysable {
        phase := 6;
        return false;
      }
      var unsafe := UnsafeCall(allocationFree, signature.calls);
      if unsafe != 0 {
        CallerIsTainted(u, safe, index, unsafe - 1);
        effectsChanged := true;
        allocationFree := allocationFree[index := false];
        assert index !in KeptSet(u, allocationFree) && index in KeptSet(u, old(allocationFree));
      }
      return true;
    }

    /** No function before index calls outside the kept set. */
    ghost predicate StableUpTo(n: nat)
      requires Valid()
      reads `allocationFree, `effectReady
    {
      forall f, t :: 0 <= f < n && f < |allocationFree| && allocationFree[f] && t in Calls(u, f) ==>
        allocationFree[t - 1]
    }

    /** The functions before n that keep the promise could be analysed. */
    ghost predicate Analysed(n: nat)
      requires Valid()
      reads `allocationFree, `effectReady
    {
      forall f :: 0 <= f < n && Defined(u, f) && allocationFree[f] ==> u.signatures[f].analysable
    }

    /** A pass that changes nothing has checked every function against the same flags. */
    method InferEffectPass(ghost safe: seq<bool>) returns (ok: bool)
      requires Valid() && phase == 0 && |safe| == |u.signatures| && Between(u, safe, allocationFree)
      modifies `allocationFree, `effectsChanged, `index, `phase
      ensures Valid() && Between(u, safe, allocationFree)
      ensures ok <==> phase == 0
      ensures !ok ==> phase == 6 && Defined(u, index) && !u.signatures[index].analysable && allocationFree[index]
      ensures ok && !effectsChanged ==> Analysed(u.count)
      ensures effectsChanged ==> KeptSet(u, allocationFree) < KeptSet(u, old(allocationFree))
      ensures !effectsChanged ==> allocationFree == old(allocationFree)
      ensures ok && !effectsChanged ==> Stable(u, safe, allocationFree)
    {
      hide LeadsToUnsafe;
      index := 0;
      effectsChanged := false;
      while phase == 0 && index < u.count
        invariant index <= u.count && Valid() && Between(u, safe, allocationFree)
        invariant phase != 0 ==>
          phase == 6 && Defined(u, index) && !u.signatures[index].analysable && allocationFree[index]
        invariant !effectsChanged ==> Analysed(index)
        invariant effectsChanged ==> KeptSet(u, allocationFree) < KeptSet(u, old(allocationFree))
        invariant !effectsChanged ==> allocationFree == old(allocationFree)
        invariant !effectsChanged ==> StableUpTo(index)
        decreases phase == 0, u.count - index
      {
        var done := InferFunctionEffect(safe);
        if done {
          index := index + 1;
        }
      }
      ok := phase == 0;
    }

    /** Mark the inferred effects of the unit as usable. */
    method FinishEffects(i: nat)
      requires Valid() && i <= u.count
      modifies `effectReady
      ensures Valid()
      ensures forall f :: 0 <= f < |effectReady| ==> effectReady[f] == (old(effectReady)[f] || i <= f < u.count)
      decreases u.count - i
    {
      if i == u.count {
        return;
      }
      effectReady := effectReady[i := true];
      FinishEffects(i + 1);
    }

    method ReportUnsafeCall(unsafe: nat)
      requires Valid() && 1 <= unsafe <= |u.signatures|
      modifies `form, `index, `phase
      ensures phase == 9 && form == u.signatures[unsafe - 1].name
      ensures index == if form == 0 then unsafe - 1 else old(index)
    {
      form := u.signatures[unsafe - 1].name;
      if form == 0 {
        index := unsafe - 1;
      }
      phase := 9;
    }

    /** A function is fine when it is imported, or analysable with only trusted region calls. */
    ghost predicate RegionsFine(f: nat)
      requires Valid() && f < |u.signatures|
      reads `allocationFree, `effectReady
    {
      u.signatures[f].imported ||
      (u.signatures[f].analysable &&
       forall t :: t in u.signatures[f].regionCalls ==> allocationFree[t - 1] && effectReady[t - 1])
    }

    /** Callee t is the first in the regions of f without a usable promise, and is what was
        reported: by its name, or by its index when it has none; f's own index stays when it
        has one. */
    ghost predicate Reported(f: nat, t: nat)
      requires Valid() && f < |u.signatures|
      reads `allocationFree, `effectReady, `form, `index
    {
      && t in u.signatures[f].regionCalls && !(allocationFree[t - 1] && effectReady[t - 1])
      && FirstWithout(Trusted(allocationFree, effectReady), u.signatures[f].regionCalls, t)
      && form == u.signatures[t - 1].name && index == if form == 0 then t - 1 else f
    }

    /** With exact flags, checking the regions decides acceptability. */
    lemma RegionsDecide(safe: seq<bool>, ready: seq<bool>)
      requires Valid() && |safe| == |ready| == |u.signatures| && Exact(u, safe, allocationFree)
      requires forall f :: 0 <= f < |ready| ==> effectReady[f] == (ready[f] || f < u.count)
      ensures (forall f :: 0 <= f < u.count ==> RegionsFine(f)) <==> Acceptable(u, safe, ready)
    {
      forall f | 0 <= f < u.count
        ensures RegionsFine(f) <==> (Defined(u, f) ==> FunctionAcceptable(u, safe, ready, f))
      {
        forall t | t in u.signatures[f].regionCalls
          ensures allocationFree[t - 1] && effectReady[t - 1] <==>
                  !Tainted(u, safe, t - 1) && (t - 1 < u.count || ready[t - 1])
        {
        }
      }
    }

    /** With exact flags, what was reported is to blame. */
    lemma BlameIsFirst(safe: seq<bool>, ready: seq<bool>, f: nat, t: nat)
      requires Valid() && |safe| == |ready| == |u.signatures| && Exact(u, safe, allocationFree)
      requires forall f :: 0 <= f < |ready| ==> effectReady[f] == (ready[f] || f < u.count)
      requires Defined(u, f) && Reported(f, t) && forall g :: 0 <= g < f ==> RegionsFine(g)
      ensures Blamed(u, safe, ready, f, t, form, index)
    {
      var calls, trusted := u.signatures[f].regionCalls, Trusted(allocationFree, effectReady);
      forall c | 1 <= c <= |safe|
        ensures Has(trusted, c) <==> !Unfit(u, safe, ready, c)
      {
      }
      forall g | 0 <= g < f && Defined(u, g)
        ensures FunctionAcceptable(u, safe, ready, g)
      {
        assert RegionsFine(g);
        forall c | c in u.signatures[g].regionCalls
          ensures !Tainted(u, safe, c - 1) && (c - 1 < u.count || ready[c - 1])
        {
          assert Has(trusted, c);
        }
      }
      var k :| 0 <= k < |calls| && calls[k] == t && forall j :: 0 <= j < k ==> Has(trusted, calls[j]);
      assert forall j :: 0 <= j < k ==> !Unfit(u, safe, ready, calls[j]);
    }

    method CheckFunctionRegions() returns (ok: bool)
      requires Valid() && phase == 0 && index < u.count
      modifies `form, `index, `phase
      ensures Valid() && (ok <==> phase == 0) && (ok <==> RegionsFine(old(index)))
      ensures ok ==> index == old(index)
      ensures !ok ==> !u.signatures[old(index)].imported
      ensures !ok ==> phase == 9 || (phase == 6 && index == old(index) && !u.signatures[index].analysable)
      ensures phase == 9 ==> u.signatures[old(index)].analysable && exists t :: Reported(old(index), t)
    {
      var signature := u.signatures[index];
      if signature.imported {
        return true;
      }
      if !signature.analysable {
        phase := 6;
        return false;
      }
      var unsafe := UnsafeCall(Trusted(allocationFree, effectReady), signature.regionCalls);
      if unsafe == 0 {
        return true;
      }
      ghost var caller := index;
      ReportUnsafeCall(unsafe);
      assert Reported(caller, unsafe);
      return false;
    }

    method CheckUnitRegions() returns (ok: bool)
      requires Valid() && phase == 0
      modifies `form, `index, `phase
      ensures Valid() && (ok <==> phase == 0)
      ensures ok <==> forall f :: 0 <= f < u.count ==> RegionsFine(f)
      ensures !ok ==> phase == 9 || (phase == 6 && Defined(u, index) && !u.signatures[index].analysable)
      ensures !ok ==> phase == 9 || forall f :: 0 <= f < index ==> RegionsFine(f)
      ensures phase == 9 ==> exists f: nat, t: nat ::
        Defined(u, f) && Reported(f, t) && forall g :: 0 <= g < f ==> RegionsFine(g)
    {
      index := 0;
      ghost var bad: nat := 0;
      while phase == 0 && index < u.count
        invariant Valid() && (phase == 0 ==> index <= u.count)
        invariant phase == 0 ==> forall f :: 0 <= f < index ==> RegionsFine(f)
        invariant phase != 0 ==> bad < u.count && !RegionsFine(bad)
        invariant phase != 0 ==> phase == 9 || (phase == 6 && Defined(u, index) && !u.signatures[index].analysable)
        invariant phase == 9 ==> Defined(u, bad) && exists t :: Reported(bad, t)
        invariant phase != 0 ==> forall f :: 0 <= f < bad ==> RegionsFine(f)
        invariant phase == 6 ==> index == bad
        decreases phase == 0, u.count - index
      {
        bad := index;
        var done := CheckFunctionRegions();
        if done {
          index := index + 1;
        }
      }
      ok := phase == 0;
    }

    /** Certification of a unit whose front end reported no error: it terminates within one
        pass more than there are promises to lose; what it keeps is exactly what reaches no
        uncertified function; and it accepts exactly when every defined function can be
        analysed and no allocation-free region calls a tainted function. */
    method CertifyEffects() returns (ok: bool, ghost passes: nat)
      requires Valid()
      modifies this
      ensures Valid()
      ensures old(phase) != 0 ==> !ok && phase == old(phase) && allocationFree == old(allocationFree)
      ensures old(phase) != 0 ==> effectReady == old(effectReady) && form == old(form) && index == old(index)
      ensures old(phase) == 0 ==>
        if phase == 6 && Has(allocationFree, index + 1) // the inference stopped at this promise
        then effectReady == old(effectReady)
        else forall f :: 0 <= f < |effectReady| ==> effectReady[f] == (old(effectReady)[f] || f < u.count)
      ensures forall f :: 0 <= f < |allocationFree| && !Defined(u, f) ==> allocationFree[f] == old(allocationFree)[f]
      ensures old(phase) == 0 ==> passes <= |KeptSet(u, old(allocationFree))| + 1
      ensures Between(u, old(allocationFree), allocationFree)
      ensures old(phase) == 0 && !(phase == 6 && Has(allocationFree, index + 1)) ==>
        Exact(u, old(allocationFree), allocationFree)
      ensures ok <==> phase == 0
      ensures old(phase) == 0 ==> (ok <==> Acceptable(u, old(allocationFree), old(effectReady)))
      ensures old(phase) == 0 && !ok ==>
        || (phase == 6 && Defined(u, index) && !u.signatures[index].analysable)
        || (phase == 9 && exists f, t :: Blamed(u, old(allocationFree), old(effectReady), f, t, form, index))
    {
      ghost var safe, ready := allocationFree, effectReady;
      StartsBetween(u, safe);
      effectsChanged := true;
      passes := 0;
      while phase == 0 && effectsChanged
        invariant Valid() && effectReady == ready && Between(u, safe, allocationFree)
        invariant phase != old(phase) ==>
          phase == 6 && Defined(u, index) && !u.signatures[index].analysable && allocationFree[index]
        invariant phase == 0 && !effectsChanged ==> Analysed(u.count)
        invariant old(phase) != 0 ==> form == old(form) && index == old(index)
        invariant old(phase) != 0 ==> phase == old(phase) && allocationFree == safe
        invariant passes + |KeptSet(u, allocationFree)| <= |KeptSet(u, safe)| + if effectsChanged then 0 else 1
        invariant phase == 0 && !effectsChanged ==> Stable(u, safe, allocationFree)
        decreases phase == 0, |KeptSet(u, allocationFree)|, effectsChanged
      {
        ghost var before := KeptSet(u, allocationFree);
        var done := InferEffectPass(safe);
        passes := passes + 1;
        if effectsChanged {
          ProperSubsetIsSmaller(KeptSet(u, allocationFree), before);
        }
      }
      UndefinedStays(u, safe, allocationFree);
      if phase != 0 {
        return false, passes;
      }
      StableBetweenIsExact(u, safe, allocationFree);
      FinishEffects(0);
      ok := CheckUnitRegions();
      RegionsDecide(safe, ready);
      if phase == 9 {
        ghost var f: nat, t: nat :| Defined(u, f) && Reported(f, t) && forall g :: 0 <= g < f ==> RegionsFine(g);
        BlameIsFirst(safe, ready, f, t);
        assert Blamed(u, safe, ready, f, t, form, index);
      }
    }
  }

  lemma ProperSubsetIsSmaller<T>(a: set<T>, b: set<T>)
    requires a < b
    ensures |a| < |b|
  {
    assert b == a + (b - a);
  }

  ghost predicate FunctionAcceptable(u: Unit, safe: seq<bool>, ready: seq<bool>, f: nat)
    requires WellFormed(u) && |safe| == |ready| == |u.signatures| && f < |u.signatures|
  {
    && u.signatures[f].analysable
    && forall t :: t in u.signatures[f].regionCalls ==>
         !Tainted(u, safe, t - 1) && (t - 1 < u.count || ready[t - 1])
  }

  /** This callee must not be called in a region: it is tainted, or outside the unit and not
      inferred. */
  ghost predicate Unfit(u: Unit, safe: seq<bool>, ready: seq<bool>, t: nat)
    requires |safe| == |ready| == |u.signatures|
  {
    t < 1 || t > |safe| || Tainted(u, safe, t - 1) || (t - 1 >= u.count && !ready[t - 1])
  }

  /** The first unfit region callee of f, the first function that has one or cannot be analysed:
      the report names it, or gives its index when it has no name. */
  ghost predicate Blamed(u: Unit, safe: seq<bool>, ready: seq<bool>, f: nat, t: nat, form: nat, index: nat)
    requires WellFormed(u) && |safe| == |ready| == |u.signatures|
  {
    && Defined(u, f) && t in u.signatures[f].regionCalls && Unfit(u, safe, ready, t)
    && (exists k :: 0 <= k < |u.signatures[f].regionCalls| && u.signatures[f].regionCalls[k] == t &&
          forall j :: 0 <= j < k ==> !Unfit(u, safe, ready, u.signatures[f].regionCalls[j]))
    && (forall g :: 0 <= g < f && Defined(u, g) ==> FunctionAcceptable(u, safe, ready, g))
    && form == u.signatures[t - 1].name && index == if form == 0 then t - 1 else f
  }

  /** When a unit deserves certification, said without any pass or flag update. */
  ghost predicate Acceptable(u: Unit, safe: seq<bool>, ready: seq<bool>)
    requires WellFormed(u) && |safe| == |ready| == |u.signatures|
  {
    forall f :: 0 <= f < u.count && Defined(u, f) ==> FunctionAcceptable(u, safe, ready, f)
  }
}
