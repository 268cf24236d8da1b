/** The observed status of a DBInstance and its flattening to string keys
    (parseDBInstanceStatus). Pointers are leaves that may be absent: a status
    is the collection of the leaves it has, and a nil parent has none. */
module Status {
  import opened Wrappers
  import opened Names
  import Text

  datatype Value =
    | Str(s: string)
    | Int(i: int)
    | Bool(b: bool)
    | Time(printed: string)

  /** The printed form of a leaf: FormatInt, FormatBool, Time.String(). */
  function Print(v: Value): string {
    match v
    case Str(s) => s
    case Int(i) => Text.Decimal(i)
    case Bool(b) => if b then "true" else "false"
    case Time(printed) => printed
  }

  /** The text keeps the value: it is the string or the time, it writes the integer,
      it says true or false. */
  lemma PrintKeeps(v: Value)
    ensures match v
            case Str(s) => Print(v) == s
            case Int(i) => Text.Denotes(Print(v), i)
            case Bool(b) => if b then Text.IsTrue(Print(v)) else Text.IsFalse(Print(v))
            case Time(printed) => Print(v) == printed
  {
    match v
    case Int(i) => Text.DecimalDenotes(i);
    case _ =>
  }

  /** Read back by the parsers of the same language, it is the value again. */
  lemma PrintedParses(v: Value)
    ensures v.Int? && -9223372036854775808 <= v.i <= 9223372036854775807 ==> Text.ParseInt(Print(v)) == Some(v.i)
    ensures v.Bool? ==> Text.ParseBool(Print(v)) == Some(v.b)
  {
    hide Text.ParseInt, Text.Denotes, Print;
    PrintKeeps(v);
    if v.Int? { Text.ParseIntIff(Print(v), v.i); }
    if v.Bool? { Text.ParseBoolIff(Print(v)); }
  }

  predicate SameKind(v: Value, u: Value) {
    && (v.Str? <==> u.Str?) && (v.Int? <==> u.Int?) && (v.Bool? <==> u.Bool?) && (v.Time? <==> u.Time?)
  }

  lemma PrintInjective(v: Value, u: Value)
    requires SameKind(v, u) && Print(v) == Print(u)
    ensures v == u
  {
    PrintKeeps(v);
    PrintKeeps(u);
    if v.Int? { Text.DenotesOne(Print(v), v.i, u.i); }
  }

  type Element = map<Leaf, Value>

  datatype Leaves = Leaves(scalars: map<Scalar, Value>, lists: map<List, seq<Element>>)

  /** Every list holds elements with the leaves of that list. */
  predicate Typed(o: Leaves) {
    forall l <- o.lists :: forall i | 0 <= i < |o.lists[l]| :: forall f <- o.lists[l][i] :: ListOf(f) == l
  }

  type Observed = o: Leaves | Typed(o) witness Leaves(map[], map[])

  /** Where a leaf is: a field path, with the index of the element it is under. */
  datatype Path = AtScalar(s: Scalar) | AtElement(f: Leaf, i: nat)

  predicate Present(o: Observed, p: Path) {
    match p
    case AtScalar(s) => s in o.scalars
    case AtElement(f, i) => ListOf(f) in o.lists && i < |o.lists[ListOf(f)]| && f in o.lists[ListOf(f)][i]
  }

  function At(o: Observed, p: Path): Value
    requires Present(o, p)
  {
    match p
    case AtScalar(s) => o.scalars[s]
    case AtElement(f, i) => o.lists[ListOf(f)][i][f]
  }

  /** The key a leaf is stored under. */
  function Render(p: Path): string {
    match p
    case AtScalar(s) => ScalarName(s)
    case AtElement(f, i) => ListName(ListOf(f)) + ['['] + (Text.Digits(i) + [']'] + LeafName(f))
  }

  lemma ElementHasBracket(f: Leaf, i: nat)
    ensures '[' in Render(AtElement(f, i))
  {
    assert Render(AtElement(f, i))[|ListName(ListOf(f))|] == '[';
  }

  /** The key of a leaf in a list holds the position of its element, which reads back. */
  lemma ElementKey(f: Leaf, i: nat)
    ensures exists digits: string ::
              && Render(AtElement(f, i)) == ListName(ListOf(f)) + "[" + digits + "]" + LeafName(f)
              && Text.Denotes(digits, i)
  {
    hide ListName, LeafName, ListOf, Text.Denotes;
    Text.DecimalDenotes(i);
    var list, leaf, digits := ListName(ListOf(f)), LeafName(f), Text.Decimal(i);
    assert list + ['['] + (digits + [']'] + leaf) == list + "[" + digits + "]" + leaf;
  }

  /** Different leaves have different keys. */
  lemma RenderInjective(p: Path, q: Path)
    requires Render(p) == Render(q)
    ensures p == q
  {
    match (p, q)
    case (AtScalar(s), AtScalar(t)) =>
      ScalarNamesDiffer(s, t);
    case (AtScalar(s), AtElement(g, _)) =>
      ScalarNamesDiffer(s, s);
      ElementHasBracket(g, q.i);
    case (AtElement(f, _), AtScalar(t)) =>
      ScalarNamesDiffer(t, t);
      ElementHasBracket(f, p.i);
    case (AtElement(f, i), AtElement(g, j)) =>
      ListNamesDiffer(ListOf(f), ListOf(g));
      ListNamesDiffer(ListOf(g), ListOf(f));
      Text.CutAtFirst(ListName(ListOf(f)), '[', Text.Digits(i) + [']'] + LeafName(f));
      Text.CutAtFirst(ListName(ListOf(g)), '[', Text.Digits(j) + [']'] + LeafName(g));
      Text.CutAtFirst(Text.Digits(i), ']', LeafName(f));
      Text.CutAtFirst(Text.Digits(j), ']', LeafName(g));
      Text.DigitsInjective(i, j);
      LeafNamesDiffer(f, g);
  }

  /** m reports the leaves of o at the given paths, and nothing else. */
  ghost predicate Reports(o: Observed, m: map<string, string>, paths: set<Path>) {
    && (forall p <- paths :: Present(o, p) && Render(p) in m && m[Render(p)] == Print(At(o, p)))
    && (forall k <- m :: exists p <- paths :: Render(p) == k)
  }

  lemma ReportOne(o: Observed, m: map<string, string>, paths: set<Path>, p: Path)
    requires Reports(o, m, paths) && Present(o, p)
    ensures Reports(o, m[Render(p) := Print(At(o, p))], paths + {p})
  {
    var m' := m[Render(p) := Print(At(o, p))];
    forall q <- paths + {p} ensures Render(q) in m' && m'[Render(q)] == Print(At(o, q)) {
      if Render(q) == Render(p) { RenderInjective(p, q); }
    }
  }

  lemma LeafIsPresent(o: Observed, l: List, i: nat, f: Leaf)
    requires l in o.lists && i < |o.lists[l]| && f in o.lists[l][i]
    ensures Present(o, AtElement(f, i)) && At(o, AtElement(f, i)) == o.lists[l][i][f]
  {
  }

  lemma ElementPathsGrow(done: set<Path>, leaves: set<Leaf>, rest: set<Leaf>, f: Leaf, i: nat)
    requires f in rest && rest <= leaves
    ensures done + ElementPaths(leaves - (rest - {f}), i) == done + ElementPaths(leaves - rest, i) + {AtElement(f, i)}
  {
  }

  lemma NoElementPaths(done: set<Path>, leaves: set<Leaf>, i: nat)
    ensures done + ElementPaths(leaves - leaves, i) == done
  {
  }

  lemma NoListPaths(done: set<Path>, elements: seq<Element>)
    ensures done + ListPaths(elements[..0]) == done
  {
  }

  lemma ListPathsGrow(done: set<Path>, elements: seq<Element>, i: nat)
    requires i < |elements|
    ensures done + ListPaths(elements[..i + 1]) == done + ListPaths(elements[..i]) + ElementPaths(elements[i].Keys, i)
  {
  }

  function ScalarPaths(scalars: set<Scalar>): set<Path> {
    set s <- scalars :: AtScalar(s)
  }

  function ElementPaths(leaves: set<Leaf>, i: nat): set<Path> {
    set f <- leaves :: AtElement(f, i)
  }

  function ListPaths(elements: seq<Element>): set<Path> {
    set i, f | 0 <= i < |elements| && f in elements[i] :: AtElement(f, i)
  }

  /** Every leaf of a status. */
  function AllPaths(o: Observed): set<Path> {
    ScalarPaths(o.scalars.Keys) + set l, p | l in o.lists && p in ListPaths(o.lists[l]) :: p
  }

  lemma AllPathsArePresent(o: Observed, p: Path)
    ensures p in AllPaths(o) <==> Present(o, p)
  {
    if p.AtElement? && Present(o, p) {
      assert p in ListPaths(o.lists[ListOf(p.f)]);
    }
  }

  method ReportScalars(o: Observed) returns (m: map<string, string>)
    ensures Reports(o, m, ScalarPaths(o.scalars.Keys))
  {
    m := map[];
    var rest := o.scalars.Keys;
    while rest != {}
      invariant rest <= o.scalars.Keys
      invariant Reports(o, m, ScalarPaths(o.scalars.Keys - rest))
    {
      var s :| s in rest;
      ReportOne(o, m, ScalarPaths(o.scalars.Keys - rest), AtScalar(s));
      m := m[ScalarName(s) := Print(o.scalars[s])];
      assert ScalarPaths(o.scalars.Keys - (rest - {s})) == ScalarPaths(o.scalars.Keys - rest) + {AtScalar(s)};
      rest := rest - {s};
    }
    assert o.scalars.Keys - rest == o.scalars.Keys;
  }

  method ReportElement(o: Observed, l: List, i: nat, before: map<string, string>, ghost done: set<Path>)
    returns (m: map<string, string>)
    requires l in o.lists && i < |o.lists[l]| && Reports(o, before, done)
    ensures Reports(o, m, done + ElementPaths(o.lists[l][i].Keys, i))
  {
    hide Reports, Present, At, ElementPaths;
    m := before;
    var leaves := o.lists[l][i];
    NoElementPaths(done, leaves.Keys, i);
    var rest := leaves.Keys;
    while rest != {}
      invariant rest <= leaves.Keys
      invariant Reports(o, m, done + ElementPaths(leaves.Keys - rest, i))
    {
      var f :| f in rest;
      LeafIsPresent(o, l, i, f);
      ReportOne(o, m, done + ElementPaths(leaves.Keys - rest, i), AtElement(f, i));
      m := m[Render(AtElement(f, i)) := Print(leaves[f])];
      ElementPathsGrow(done, leaves.Keys, rest, f, i);
      rest := rest - {f};
    }
    assert leaves.Keys - rest == leaves.Keys;
  }

  method ReportList(o: Observed, l: List, before: map<string, string>, ghost done: set<Path>)
    returns (m: map<string, string>)
    requires l in o.lists && Reports(o, before, done)
    ensures Reports(o, m, done + ListPaths(o.lists[l]))
  {
    hide Reports, ListPaths;
    m := before;
    var elements := o.lists[l];
    NoListPaths(done, elements);
    for i := 0 to |elements|
      invariant Reports(o, m, done + ListPaths(elements[..i]))
    {
      m := ReportElement(o, l, i, m, done + ListPaths(elements[..i]));
      ListPathsGrow(done, elements, i);
    }
    assert elements[..|elements|] == elements;
  }

  /** parseDBInstanceStatus: m is the flattening of o. */
  ghost predicate Flattens(o: Observed, m: map<string, string>) {
    Reports(o, m, AllPaths(o))
  }

  method ParseDBInstanceStatus(o: Observed) returns (m: map<string, string>)
    ensures Flattens(o, m)
  {
    m := ReportScalars(o);
    ghost var done := ScalarPaths(o.scalars.Keys);
    var rest := o.lists.Keys;
    while rest != {}
      invariant rest <= o.lists.Keys
      invariant done == ScalarPaths(o.scalars.Keys) + set l, p | l in o.lists.Keys - rest
                && p in ListPaths(o.lists[l]) :: p
      invariant Reports(o, m, done)
    {
      var l :| l in rest;
      m := ReportList(o, l, m, done);
      done := done + ListPaths(o.lists[l]);
      rest := rest - {l};
    }
    assert done == AllPaths(o);
  }

  /** The flattening is lossless: it has as many entries as the status has leaves,
      and looking up any path's key gives its printed value or shows its absence. */
  lemma FlatteningIsLossless(o: Observed, m: map<string, string>)
    requires Flattens(o, m)
    ensures |m| == |AllPaths(o)|
    ensures forall p: Path :: Render(p) in m <==> Present(o, p)
    ensures forall p: Path :: Present(o, p) ==> m[Render(p)] == Print(At(o, p))
  {
    forall p: Path
      ensures Render(p) in m <==> Present(o, p)
      ensures Present(o, p) ==> m[Render(p)] == Print(At(o, p))
    {
      AllPathsArePresent(o, p);
      if Render(p) in m {
        var q :| q in AllPaths(o) && Render(q) == Render(p);
        RenderInjective(p, q);
      }
    }
    KeysCount(m.Keys, AllPaths(o));
    assert |m| == |m.Keys|;
  }

  lemma {:induction false} KeysCount(keys: set<string>, paths: set<Path>)
    requires forall p <- paths :: Render(p) in keys
    requires forall k <- keys :: exists p <- paths :: Render(p) == k
    ensures |keys| == |paths|
    decreases paths
  {
    if paths == {} {
      assert keys == {};
    } else {
      var p :| p in paths;
      forall q <- paths - {p} ensures Render(q) in keys - {Render(p)} {
        if Render(q) == Render(p) { RenderInjective(p, q); }
      }
      forall k <- keys - {Render(p)} ensures exists q <- paths - {p} :: Render(q) == k {
        var q :| q in paths && Render(q) == k;
        assert q in paths - {p};
      }
      KeysCount(keys - {Render(p)}, paths - {p});
    }
  }

  /** Where both have a leaf, the values are of one type. */
  ghost predicate SameKinds(o: Observed, o': Observed) {
    forall p: Path :: Present(o, p) && Present(o', p) ==> SameKind(At(o, p), At(o', p))
  }

  /** Every list is there for an element, and every element for a leaf. */
  predicate Tight(o: Observed) {
    forall l <- o.lists :: o.lists[l] != [] && forall e <- o.lists[l] :: e != map[]
  }

  /** Nothing of the values is lost: two statuses that flatten alike, with values of the
      same types, have the same leaves with the same values, and are the same but for
      empty lists and empty elements. */
  lemma FlatteningKeepsValues(o: Observed, o': Observed, m: map<string, string>)
    requires Flattens(o, m) && Flattens(o', m) && SameKinds(o, o')
    ensures forall p: Path :: Present(o, p) <==> Present(o', p)
    ensures forall p: Path :: Present(o, p) ==> At(o, p) == At(o', p)
    ensures o.scalars == o'.scalars && (Tight(o) && Tight(o') ==> o == o')
  {
    FlatteningIsLossless(o, m);
    FlatteningIsLossless(o', m);
    forall p: Path
      ensures Present(o, p) <==> Present(o', p)
      ensures Present(o, p) ==> At(o, p) == At(o', p)
    {
      assert Render(p) in m <==> Present(o, p);
      assert Render(p) in m <==> Present(o', p);
      if Present(o, p) { PrintInjective(At(o, p), At(o', p)); }
    }
    SameScalars(o, o');
    if Tight(o) && Tight(o') {
      forall l <- o.lists ensures l in o'.lists && o.lists[l] == o'.lists[l] { SameList(o, o', l); }
      forall l <- o'.lists ensures l in o.lists { SameList(o', o, l); }
      assert o.lists == o'.lists;
    }
  }

  ghost predicate SameLeaves(o: Observed, o': Observed) {
    && (forall p: Path :: Present(o, p) <==> Present(o', p))
    && (forall p: Path :: Present(o, p) ==> At(o, p) == At(o', p))
  }

  lemma SameScalars(o: Observed, o': Observed)
    requires SameLeaves(o, o')
    ensures o.scalars == o'.scalars
  {
    forall s <- o.scalars ensures s in o'.scalars && o.scalars[s] == o'.scalars[s] {
      assert Present(o, AtScalar(s)) && Present(o', AtScalar(s)) && At(o, AtScalar(s)) == At(o', AtScalar(s));
    }
    forall s <- o'.scalars ensures s in o.scalars { assert Present(o', AtScalar(s)) && Present(o, AtScalar(s)); }
  }

  /** An element of a list in both. */
  lemma SameElement(o: Observed, o': Observed, l: List, i: nat)
    requires SameLeaves(o, o') && l in o.lists && i < |o.lists[l]| && o.lists[l][i] != map[]
    ensures l in o'.lists && i < |o'.lists[l]| && o.lists[l][i] == o'.lists[l][i]
  {
    var e := o.lists[l][i];
    var g :| g in e;
    LeafIsPresent(o, l, i, g);
    assert ListOf(g) == l && Present(o', AtElement(g, i));
    var e' := o'.lists[l][i];
    forall f <- e ensures f in e' && e[f] == e'[f] {
      LeafIsPresent(o, l, i, f);
      assert ListOf(f) == l && Present(o', AtElement(f, i)) && At(o', AtElement(f, i)) == e'[f];
    }
    forall f <- e' ensures f in e {
      assert ListOf(f) == l && Present(o', AtElement(f, i)) && Present(o, AtElement(f, i));
    }
  }

  lemma SameList(o: Observed, o': Observed, l: List)
    requires SameLeaves(o, o') && l in o.lists && Tight(o) && Tight(o')
    ensures l in o'.lists && o.lists[l] == o'.lists[l]
  {
    forall i: nat | i < |o.lists[l]|
      ensures l in o'.lists && i < |o'.lists[l]| && o.lists[l][i] == o'.lists[l][i]
    {
      assert o.lists[l][i] in o.lists[l];
      SameElement(o, o', l, i);
    }
    var n := |o.lists[l]|;
    assert o.lists[l][n - 1] in o.lists[l];
    SameElement(o, o', l, n - 1);
    if |o'.lists[l]| > |o.lists[l]| {
      assert o'.lists[l][|o.lists[l]|] in o'.lists[l];
      SameElement(o', o, l, |o.lists[l]|);
    }
  }

  /** A status has one flattening. */
  lemma FlatteningIsUnique(o: Observed, m: map<string, string>, n: map<string, string>)
    requires Flattens(o, m) && Flattens(o, n)
    ensures m == n
  {
    forall k <- m ensures k in n && n[k] == m[k] {
      var p :| p in AllPaths(o) && Render(p) == k;
    }
    forall k <- n ensures k in m {
      var p :| p in AllPaths(o) && Render(p) == k;
    }
  }
}
