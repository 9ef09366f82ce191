/** The class hierarchy as the rules checker sees it: a snapshot of the global scope,
    name by name, and the walks along `parentName` links that every inheritance rule
    performs (`globals.lookup(current.getParentName())`).

    The source's walks stop only at a null lookup.  Here every walk visits at most
    `|g| + 1` classes; the lemmas below show that this bound never cuts a walk that
    would have ended on its own, and that it is what makes a walk around a cycle end. */
module Hierarchy {
  import opened Base

  /** A formal parameter as the override check sees it: its name and its current static
      type (None while the formal has not been resolved). */
  datatype Param = Param(name: Name, typ: Option<Name>)

  /** A method of a user class: its formals in declaration order and its return type. */
  datatype MethodSig = MethodSig(params: seq<Param>, returnType: Name)

  /** A registered class: its parent's name and the names in its attribute table
      (built-in methods included, see SymbolTable).  Neither changes once the
      definition pass is over. */
  datatype ClassInfo = ClassInfo(parentName: Option<Name>, attributes: set<Name>)

  /** The method tables of the registered classes, by class name.  Unlike `Globals`
      these change during resolution, as formals receive their types. */
  type MethodTables = map<Name, map<Name, MethodSig>>

  /** The global scope: every entry is a class, keyed by its name. */
  type Globals = map<Name, ClassInfo>

  /** `(ClassSymbol) globals.lookup(n)`: the class named `n` if it is registered
      (a null name finds nothing). */
  function Find(g: Globals, n: Option<Name>): (r: Option<Name>)
    ensures r.Some? <==> n.Some? && n.value in g
    ensures r.Some? ==> r == n
  {
    if n.Some? && n.value in g then n else None
  }

  /** One step of every walk: `globals.lookup(current.getParentName())`. */
  function Next(g: Globals, n: Name): (r: Option<Name>)
    ensures r.Some? ==> r.value in g
    ensures r.Some? ==> n in g && g[n].parentName == r
  {
    if n in g then Find(g, g[n].parentName) else None
  }

  /** The cursor of a walk started at `s` after `k` steps. */
  function Up(g: Globals, s: Option<Name>, k: nat): Option<Name>
    decreases k
  {
    if k == 0 then s
    else match s
      case None => None
      case Some(n) => Up(g, Next(g, n), k - 1)
  }

  /** `x` is met by the walk started at `s`, after any number of steps. */
  ghost predicate Reach(g: Globals, s: Option<Name>, x: Name) {
    exists k: nat :: Up(g, s, k) == Some(x)
  }

  /** The walk from `s` ends: some lookup yields null. */
  ghost predicate Ends(g: Globals, s: Option<Name>) {
    exists k: nat :: Up(g, s, k).None?
  }

  /** The first class met by the walk from `cur`, within `fuel` visits, that lies in `S`. */
  function FirstIn(g: Globals, cur: Option<Name>, S: set<Name>, fuel: nat): (r: Option<Name>)
    ensures r.Some? ==> r.value in S
    decreases fuel
  {
    if fuel == 0 || cur.None? then None
    else if cur.value in S then cur
    else FirstIn(g, Next(g, cur.value), S, fuel - 1)
  }

  /** The names the walk from `cur` visits within `fuel` visits. */
  function Collect(g: Globals, cur: Option<Name>, fuel: nat): set<Name>
    decreases fuel
  {
    if fuel == 0 || cur.None? then {}
    else {cur.value} + Collect(g, Next(g, cur.value), fuel - 1)
  }

  /** Every class the walk from `s` can reach, as `getCommonParrent` collects them for
      its first argument. */
  function AncestorSet(g: Globals, s: Option<Name>): set<Name> {
    Collect(g, s, |g| + 1)
  }

  // ----- the walk, step by step -----

  lemma {:induction false} LemmaUpShift(g: Globals, s: Option<Name>, a: nat, b: nat)
    ensures Up(g, Up(g, s, a), b) == Up(g, s, a + b)
    decreases a
  {
    if a > 0 && s.Some? {
      LemmaUpShift(g, Next(g, s.value), a - 1, b);
    }
  }

  lemma LemmaUpStep(g: Globals, s: Option<Name>, k: nat)
    ensures Up(g, s, k + 1) == (match Up(g, s, k) case None => None case Some(n) => Next(g, n))
  {
    LemmaUpShift(g, s, k, 1);
  }

  lemma LemmaUpNoneStays(g: Globals, s: Option<Name>, a: nat, b: nat)
    requires Up(g, s, a).None? && a <= b
    ensures Up(g, s, b).None?
  {
    LemmaUpShift(g, s, a, b - a);
  }

  lemma {:induction false} LemmaUpRegistered(g: Globals, s: Option<Name>, k: nat)
    requires k >= 1 && Up(g, s, k).Some?
    ensures Up(g, s, k).value in g
    decreases k
  {
    if k > 1 {
      LemmaUpRegistered(g, Next(g, s.value), k - 1);
    }
  }

  /** A walk that meets the same class twice goes around forever. */
  lemma LemmaUpPeriodic(g: Globals, s: Option<Name>, i: nat, j: nat, t: nat)
    requires i <= j && Up(g, s, i) == Up(g, s, j)
    ensures Up(g, s, i + t) == Up(g, s, j + t)
  {
    LemmaUpShift(g, s, i, t);
    LemmaUpShift(g, s, j, t);
  }

  /** Up to the first visit of `x`, no class is visited twice. */
  lemma LemmaFirstVisitDistinct(g: Globals, s: Option<Name>, x: Name, k: nat)
    requires Up(g, s, k) == Some(x)
    requires forall j :: 0 <= j < k ==> Up(g, s, j) != Some(x)
    ensures forall i, j :: 0 <= i < j <= k ==> Up(g, s, i) != Up(g, s, j)
    ensures forall j :: 0 <= j <= k ==> Up(g, s, j).Some?
  {
    forall i, j | 0 <= i < j <= k
      ensures Up(g, s, i) != Up(g, s, j)
    {
      if Up(g, s, i) == Up(g, s, j) {
        LemmaUpPeriodic(g, s, i, j, k - j);
        assert false;
      }
    }
    forall j | 0 <= j <= k
      ensures Up(g, s, j).Some?
    {
      if Up(g, s, j).None? {
        LemmaUpNoneStays(g, s, j, k);
      }
    }
  }

  /** Distinct names drawn from a set are no more numerous than the set. */
  lemma {:induction false} LemmaDistinctBound(xs: seq<Name>, S: set<Name>)
    requires forall i, j :: 0 <= i < j < |xs| ==> xs[i] != xs[j]
    requires forall i :: 0 <= i < |xs| ==> xs[i] in S
    ensures |xs| <= |S|
    decreases |xs|
  {
    if |xs| > 0 {
      var last := xs[|xs| - 1];
      var rest := xs[..|xs| - 1];
      forall i | 0 <= i < |rest|
        ensures rest[i] in S - {last}
      {
        assert rest[i] == xs[i];
      }
      LemmaDistinctBound(rest, S - {last});
    }
  }

  /** The `m`-th visit is the walk's first visit of `x`. */
  ghost predicate FirstVisitAt(g: Globals, s: Option<Name>, x: Name, m: nat) {
    Up(g, s, m) == Some(x) && forall j :: 0 <= j < m ==> Up(g, s, j) != Some(x)
  }

  /** A class the walk meets, it meets a first time. */
  lemma {:induction false} LemmaFirstVisit(g: Globals, s: Option<Name>, x: Name, k: nat) returns (m: nat)
    requires Up(g, s, k) == Some(x)
    ensures m <= k && FirstVisitAt(g, s, x, m)
    decreases k
  {
    if j: nat :| j < k && Up(g, s, j) == Some(x) {
      m := LemmaFirstVisit(g, s, x, j);
    } else {
      m := k;
    }
  }

  /** The pigeonhole bound: a class the walk reaches at all, it reaches within `|g|`
      steps, because every class after the first visited one is registered. */
  lemma LemmaReachWithinBound(g: Globals, s: Option<Name>, x: Name, k: nat) returns (m: nat)
    requires Up(g, s, k) == Some(x)
    ensures m <= |g| && FirstVisitAt(g, s, x, m)
  {
    m := LemmaFirstVisit(g, s, x, k);
    LemmaFirstVisitDistinct(g, s, x, m);
    if m > |g| {
      var xs := seq(m, i requires 0 <= i < m => Up(g, s, i + 1).value);
      forall i | 0 <= i < m
        ensures xs[i] in g
      {
        LemmaUpRegistered(g, s, i + 1);
      }
      forall i, j | 0 <= i < j < m
        ensures xs[i] != xs[j]
      {
        assert Up(g, s, i + 1) != Up(g, s, j + 1);
      }
      LemmaDistinctBound(xs, g.Keys);
      assert false;
    }
  }

  // ----- what the bounded walks compute -----

  /** The `k`-th visit is the walk's first visit to a member of `S`. */
  ghost predicate FirstInAt(g: Globals, s: Option<Name>, S: set<Name>, k: nat) {
    && Up(g, s, k).Some? && Up(g, s, k).value in S
    && forall j :: 0 <= j < k ==> !(Up(g, s, j).Some? && Up(g, s, j).value in S)
  }

  lemma {:induction false} LemmaFirstInFuel(g: Globals, s: Option<Name>, S: set<Name>, f: nat)
    ensures FirstIn(g, s, S, f).Some? ==> exists k: nat :: k < f && FirstInAt(g, s, S, k) && Up(g, s, k) == FirstIn(g, s, S, f)
    ensures FirstIn(g, s, S, f).None? ==> forall k: nat :: k < f ==> !(Up(g, s, k).Some? && Up(g, s, k).value in S)
    decreases f
  {
    if f > 0 && s.Some? && s.value !in S {
      var t := Next(g, s.value);
      LemmaFirstInFuel(g, t, S, f - 1);
      assert forall k: nat :: Up(g, s, k + 1) == Up(g, t, k);
      if FirstIn(g, t, S, f - 1).Some? {
        var k: nat :| k < f - 1 && FirstInAt(g, t, S, k) && Up(g, t, k) == FirstIn(g, t, S, f - 1);
        forall j | 0 <= j < k + 1
          ensures !(Up(g, s, j).Some? && Up(g, s, j).value in S)
        {
          if j > 0 { assert Up(g, s, j) == Up(g, t, j - 1); }
        }
        assert FirstInAt(g, s, S, k + 1);
      } else {
        forall k: nat | k < f
          ensures !(Up(g, s, k).Some? && Up(g, s, k).value in S)
        {
          if k > 0 { assert Up(g, s, k) == Up(g, t, k - 1); }
        }
      }
    } else if f > 0 && s.Some? {
      assert FirstInAt(g, s, S, 0);
    }
  }

  /** With `|g| + 1` visits the bounded search finds the first member of `S` on the
      whole walk, and finds nothing exactly when the walk never meets `S`. */
  lemma LemmaFirstIn(g: Globals, s: Option<Name>, S: set<Name>)
    ensures FirstIn(g, s, S, |g| + 1).None? <==> forall k: nat :: !(Up(g, s, k).Some? && Up(g, s, k).value in S)
    ensures FirstIn(g, s, S, |g| + 1).Some? ==> exists k: nat :: FirstInAt(g, s, S, k) && Up(g, s, k) == FirstIn(g, s, S, |g| + 1)
  {
    LemmaFirstInFuel(g, s, S, |g| + 1);
    if FirstIn(g, s, S, |g| + 1).None? {
      forall k: nat
        ensures !(Up(g, s, k).Some? && Up(g, s, k).value in S)
      {
        if Up(g, s, k).Some? && Up(g, s, k).value in S {
          var m := LemmaReachWithinBound(g, s, Up(g, s, k).value, k);
          assert false;
        }
      }
    }
  }

  /** A walk that reaches a member of `S` makes the bounded search find one. */
  lemma LemmaFirstInFinds(g: Globals, s: Option<Name>, S: set<Name>, k: nat)
    requires Up(g, s, k).Some? && Up(g, s, k).value in S
    ensures FirstIn(g, s, S, |g| + 1).Some?
  {
    LemmaFirstIn(g, s, S);
  }

  /** A bounded search that finds nothing means no member of `S` is ever reached. */
  lemma LemmaFirstInNone(g: Globals, s: Option<Name>, S: set<Name>, x: Name)
    requires FirstIn(g, s, S, |g| + 1).None? && x in S
    ensures !Reach(g, s, x)
  {
    LemmaFirstIn(g, s, S);
    forall k: nat
      ensures Up(g, s, k) != Some(x)
    {
      assert !(Up(g, s, k).Some? && Up(g, s, k).value in S);
    }
  }

  lemma {:induction false} LemmaCollectSound(g: Globals, s: Option<Name>, f: nat, x: Name) returns (k: nat)
    requires x in Collect(g, s, f)
    ensures k < f && Up(g, s, k) == Some(x)
    decreases f
  {
    var t := Next(g, s.value);
    if x == s.value {
      k := 0;
    } else {
      var j := LemmaCollectSound(g, t, f - 1, x);
      k := j + 1;
      assert Up(g, s, k) == Up(g, t, j);
    }
  }

  lemma {:induction false} LemmaCollectComplete(g: Globals, s: Option<Name>, f: nat, x: Name, k: nat)
    requires k < f && Up(g, s, k) == Some(x)
    ensures x in Collect(g, s, f)
    decreases f
  {
    if k > 0 {
      var t := Next(g, s.value);
      assert Up(g, s, k) == Up(g, t, k - 1);
      LemmaCollectComplete(g, t, f - 1, x, k - 1);
    }
  }

  /** The ancestor set holds exactly the classes the walk reaches. */
  lemma LemmaAncestorSet(g: Globals, s: Option<Name>, x: Name)
    ensures x in AncestorSet(g, s) <==> Reach(g, s, x)
  {
    if Reach(g, s, x) {
      var k: nat :| Up(g, s, k) == Some(x);
      var m := LemmaReachWithinBound(g, s, x, k);
      LemmaCollectComplete(g, s, |g| + 1, x, m);
    }
    if x in AncestorSet(g, s) {
      var k := LemmaCollectSound(g, s, |g| + 1, x);
    }
  }

  // ----- hierarchies without cycles -----

  lemma {:induction false} LemmaLoopForever(g: Globals, x: Name, n: nat, t: nat)
    requires n > 0 && Up(g, Some(x), n) == Some(x)
    ensures Up(g, Some(x), t * n) == Some(x)
    decreases t
  {
    if t > 0 {
      LemmaLoopForever(g, x, n, t - 1);
      LemmaUpShift(g, Some(x), (t - 1) * n, n);
      assert (t - 1) * n + n == t * n;
    }
  }

  /** A walk that ends never comes back to where it started. */
  lemma LemmaNoReturn(g: Globals, x: Name, n: nat)
    requires Ends(g, Some(x)) && n > 0
    ensures Up(g, Some(x), n) != Some(x)
  {
    if Up(g, Some(x), n) == Some(x) {
      var k: nat :| Up(g, Some(x), k).None?;
      LemmaLoopForever(g, x, n, k);
      assert k <= k * n;
      LemmaUpNoneStays(g, Some(x), k, k * n);
      assert false;
    }
  }

  /** A class reached by a walk that ends starts a walk that ends. */
  lemma LemmaEndsFrom(g: Globals, s: Option<Name>, x: Name)
    requires Ends(g, s) && Reach(g, s, x)
    ensures Ends(g, Some(x))
  {
    var p: nat :| Up(g, s, p) == Some(x);
    var k: nat :| Up(g, s, k).None?;
    if k <= p {
      LemmaUpNoneStays(g, s, k, p);
    }
    LemmaUpShift(g, s, p, k - p);
    assert Up(g, Some(x), k - p).None?;
  }

  /** Two classes that reach each other on a walk that ends are the same class. */
  lemma LemmaMutualReach(g: Globals, x: Name, z: Name)
    requires Ends(g, Some(x)) && Reach(g, Some(x), z) && Reach(g, Some(z), x)
    ensures x == z
  {
    var u: nat :| Up(g, Some(x), u) == Some(z);
    var v: nat :| Up(g, Some(z), v) == Some(x);
    LemmaUpShift(g, Some(x), u, v);
    if u + v > 0 {
      LemmaNoReturn(g, x, u + v);
    }
  }

  // ----- the join: `getCommonParrent` -----

  /** SELF_TYPE stands for the enclosing class. */
  function ResolveSelf(n: Name, enclosing: Name): (r: Name)
    ensures n != "SELF_TYPE" ==> r == n
    ensures n == "SELF_TYPE" ==> r == enclosing
  {
    if n == "SELF_TYPE" then enclosing else n
  }

  /** The join of two static types inside the class `enclosing` (None: no class
      encloses the scope).  Equal names join to themselves; otherwise the result is the
      first class on the walk from `c2` that the walk from `c1` also reaches, and
      Object when there is none. */
  function Join(g: Globals, c1: Option<Name>, c2: Option<Name>, enclosing: Option<Name>): Option<Name> {
    if enclosing.None? || c1.None? || c2.None? then None
    else if c1.value == c2.value then c1
    else
      var a := ResolveSelf(c1.value, enclosing.value);
      var b := ResolveSelf(c2.value, enclosing.value);
      match FirstIn(g, Some(b), AncestorSet(g, Some(a)), |g| + 1)
      case Some(x) => Some(x)
      case None => Find(g, Some("Object"))
  }

  /** `x` is reached by both walks. */
  ghost predicate CommonAncestor(g: Globals, a: Name, b: Name, x: Name) {
    Reach(g, Some(a), x) && Reach(g, Some(b), x)
  }

  /** The join is the least common ancestor: when the two walks meet, it is a class both
      reach and every class both reach lies above it; when they never meet, it is
      Object. */
  lemma LemmaJoinLeast(g: Globals, c1: Name, c2: Name, e: Name)
    requires c1 != c2
    ensures var a, b, r := ResolveSelf(c1, e), ResolveSelf(c2, e), Join(g, Some(c1), Some(c2), Some(e));
      (exists y :: CommonAncestor(g, a, b, y)) ==>
        && r.Some? && CommonAncestor(g, a, b, r.value)
        && forall y :: CommonAncestor(g, a, b, y) ==> Reach(g, r, y)
    ensures var a, b := ResolveSelf(c1, e), ResolveSelf(c2, e);
      !(exists y :: CommonAncestor(g, a, b, y)) ==> Join(g, Some(c1), Some(c2), Some(e)) == Find(g, Some("Object"))
  {
    var a, b := ResolveSelf(c1, e), ResolveSelf(c2, e);
    var S := AncestorSet(g, Some(a));
    forall y
      ensures y in S <==> Reach(g, Some(a), y)
    {
      LemmaAncestorSet(g, Some(a), y);
    }
    LemmaFirstIn(g, Some(b), S);
    var f := FirstIn(g, Some(b), S, |g| + 1);
    if y :| CommonAncestor(g, a, b, y) {
      var j: nat :| Up(g, Some(b), j) == Some(y);
      assert y in S;
      LemmaFirstInFinds(g, Some(b), S, j);
      var i: nat :| FirstInAt(g, Some(b), S, i) && Up(g, Some(b), i) == f;
      var x := f.value;
      assert CommonAncestor(g, a, b, x);
      forall z | CommonAncestor(g, a, b, z)
        ensures Reach(g, f, z)
      {
        var jz: nat :| Up(g, Some(b), jz) == Some(z);
        assert Up(g, Some(b), jz).value in S;
        assert jz >= i;
        LemmaUpShift(g, Some(b), i, jz - i);
        assert Up(g, f, jz - i) == Some(z);
      }
    } else {
      if f.Some? {
        var i: nat :| FirstInAt(g, Some(b), S, i) && Up(g, Some(b), i) == f;
        assert CommonAncestor(g, a, b, f.value);
        assert false;
      }
    }
  }

  /** join(A, A) = A. */
  lemma LemmaJoinSame(g: Globals, c: Name, e: Name)
    ensures Join(g, Some(c), Some(c), Some(e)) == Some(c)
  {
  }

  /** Object absorbs: join(A, Object) = join(Object, A) = Object, when Object is
      registered without a parent. */
  lemma LemmaJoinObject(g: Globals, c: Name, e: Name)
    requires "Object" in g && g["Object"].parentName.None?
    ensures Join(g, Some(c), Some("Object"), Some(e)) == Some("Object")
    ensures Join(g, Some("Object"), Some(c), Some(e)) == Some("Object")
  {
    var a := ResolveSelf(c, e);
    assert Next(g, "Object") == None;
    assert Collect(g, Some("Object"), |g| + 1) == {"Object"} + Collect(g, None, |g|);
    assert AncestorSet(g, Some("Object")) == {"Object"};
    var S := AncestorSet(g, Some(a));
    assert FirstIn(g, Some("Object"), S, |g| + 1) == if "Object" in S then Some("Object") else FirstIn(g, None, S, |g|);
  }

  /** On a hierarchy where the walk from one argument ends, join is commutative. */
  lemma LemmaJoinCommutes(g: Globals, c1: Name, c2: Name, e: Name)
    requires Ends(g, Some(ResolveSelf(c1, e)))
    ensures Join(g, Some(c1), Some(c2), Some(e)) == Join(g, Some(c2), Some(c1), Some(e))
  {
    if c1 != c2 {
      var a, b := ResolveSelf(c1, e), ResolveSelf(c2, e);
      LemmaJoinLeast(g, c1, c2, e);
      LemmaJoinLeast(g, c2, c1, e);
      var r1, r2 := Join(g, Some(c1), Some(c2), Some(e)), Join(g, Some(c2), Some(c1), Some(e));
      if y :| CommonAncestor(g, a, b, y) {
        assert CommonAncestor(g, b, a, y);
        assert CommonAncestor(g, b, a, r1.value);
        assert Reach(g, r2, r1.value);
        assert Reach(g, r1, r2.value);
        LemmaEndsFrom(g, Some(a), r1.value);
        LemmaMutualReach(g, r1.value, r2.value);
      } else {
        forall y
          ensures !CommonAncestor(g, b, a, y)
        {
          assert !CommonAncestor(g, a, b, y);
        }
      }
    }
  }

  /** Conformance: join(D, T) = D exactly when D lies on T's walk (apart from the
      Object fallback), provided the walk from D ends. */
  lemma LemmaJoinConforms(g: Globals, d: Name, t: Name, e: Name)
    requires d != "SELF_TYPE" && t != "SELF_TYPE"
    requires Ends(g, Some(d))
    ensures Reach(g, Some(t), d) ==> Join(g, Some(d), Some(t), Some(e)) == Some(d)
    ensures Join(g, Some(d), Some(t), Some(e)) == Some(d) ==> Reach(g, Some(t), d) || d == "Object"
  {
    if d != t {
      LemmaJoinLeast(g, d, t, e);
      var r := Join(g, Some(d), Some(t), Some(e));
      assert Up(g, Some(d), 0) == Some(d);
      if Reach(g, Some(t), d) {
        assert CommonAncestor(g, d, t, d);
        assert Reach(g, r, d);
        LemmaMutualReach(g, d, r.value);
      }
      if r == Some(d) && d != "Object" {
        if !(exists y :: CommonAncestor(g, d, t, y)) {
          assert r == Find(g, Some("Object"));
        }
      }
    } else {
      assert Up(g, Some(t), 0) == Some(d);
    }
  }
}
