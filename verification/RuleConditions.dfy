/**
 The evaluator of rule conditions: comparisons of fields joined by and, or and not. An empty and or or is
 false, and a comparison of unsuitable types is false, so not every law of Boolean algebra holds.
 */
module RuleConditions {
  import opened Common

  /** A value of the context; a builtin is a property that an object inherits. */
  datatype Json =
    | Undefined | Null | Bool(b: bool) | Num(n: real) | Str(s: string) | Arr(items: seq<Json>)
    | Obj(fields: map<string, Json>) | Builtin(name: string)

  /** The value a comparison names: no objects, and arrays of texts and numbers only. */
  datatype Scalar = Text(s: string) | Number(n: real)

  datatype Expected = One(scalar: Scalar) | Truth(b: bool) | Many(scalars: seq<Scalar>)

  datatype Op = Eq | Ne | Gt | Ge | Lt | Le | In | NotIn | Contains

  datatype AST =
    | And(children: seq<AST>)
    | Or(children: seq<AST>)
    | Not(child: AST)
    | Compare(field: string, op: Op, value: Expected)

  // ---- nested fields ----

  /** String.split on ".". */
  function Split(s: string): (parts: seq<string>)
    ensures |parts| >= 1
  {
    if s == "" then [""]
    else
      var rest := Split(s[1..]);
      if s[0] == '.' then [""] + rest else [[s[0]] + rest[0]] + rest[1..]
  }

  /** The index a property name stands for, if it is one of 0, 1, 2, ... without leading zeros. */
  function Index(name: string): Option<nat> {
    if name == "" || (|name| > 1 && name[0] == '0') then None else Digits(name)
  }

  function Digits(s: string): Option<nat> {
    if s == "" then Some(0)
    else
      match Digits(s[..|s| - 1])
      case None => None
      case Some(n) =>
        var c := s[|s| - 1];
        if '0' <= c <= '9' then Some(10 * n + (c as int - '0' as int)) else None
  }

  /** One step of the path; `inherited` are the property names every object or array has. */
  function Property(inherited: set<string>, v: Json, name: string): Json {
    match v
    case Obj(fields) => if name in fields then fields[name] else Inherited(inherited, name)
    case Arr(items) =>
      if Index(name).Some? && Index(name).value < |items| then items[Index(name).value]
      else if name == "length" then Num(|items| as real)
      else Inherited(inherited, name)
    case _ => Undefined
  }

  function Follow(inherited: set<string>, v: Json, parts: seq<string>): Json {
    if parts == [] then v
    else Property(inherited, Follow(inherited, v, parts[..|parts| - 1]), parts[|parts| - 1])
  }

  /** Texts without a leading zero stand for their digits read in base ten. */
  lemma {:induction false} DigitsOfDecimal(n: nat)
    ensures Digits(Decimal(n)) == Some(n) && (n > 0 ==> Decimal(n)[0] != '0')
  {
    var s, front := Decimal(n), if n < 10 then "" else Decimal(n / 10);
    assert s == front + [Digit(n % 10)] && s[..|s| - 1] == front;
    if n >= 10 { DigitsOfDecimal(n / 10); }
  }

  lemma {:induction false} DecimalOfDigits(s: string, n: nat)
    requires s != "" && (s[0] == '0' ==> |s| == 1) && Digits(s) == Some(n)
    ensures s == Decimal(n) && (s[0] == '0' <==> n == 0)
  {
    var front, c := s[..|s| - 1], s[|s| - 1];
    assert s == front + [c];
    if front != "" {
      DecimalOfDigits(front, Digits(front).value);
    } else {
      assert Digits(front) == Some(0);
    }
  }

  /** A property name is an index exactly if it is the number's decimal text. */
  lemma IndexIff(name: string, n: nat)
    ensures Index(name) == Some(n) <==> name == Decimal(n)
  {
    DigitsOfDecimal(n);
    if Index(name) == Some(n) { DecimalOfDigits(name, n); }
    if n == 0 { assert Decimal(0) == ['0']; }
    if |Decimal(n)| > 1 && Decimal(n)[0] == '0' { assert n == 0; }
  }

  /** What a property is: an own one goes before an inherited one, and only objects and arrays have any. */
  lemma PropertyIs(inherited: set<string>, v: Json, name: string)
    ensures v.Obj? ==>
      Property(inherited, v, name) == if name in v.fields then v.fields[name] else Inherited(inherited, name)
    ensures v.Arr? ==> forall i: nat | i < |v.items| && name == Decimal(i) :: Property(inherited, v, name) == v.items[i]
    ensures v.Arr? && (forall i: nat | i < |v.items| :: name != Decimal(i)) ==>
      Property(inherited, v, name) == if name == "length" then Num(|v.items| as real) else Inherited(inherited, name)
    ensures !v.Obj? && !v.Arr? ==> Property(inherited, v, name) == Undefined
  {
    if v.Arr? {
      forall i: nat | i < |v.items| ensures Index(name) == Some(i) <==> name == Decimal(i) { IndexIff(name, i); }
    }
  }

  function Inherited(inherited: set<string>, name: string): Json {
    if name in inherited then Builtin(name) else Undefined
  }

  function GetNestedValue(inherited: set<string>, v: Json, path: string): Json {
    Follow(inherited, v, Split(path))
  }

  // ---- evaluation ----

  /** `===` with a scalar: same type and same value. */
  predicate Is(v: Json, x: Scalar) {
    match x
    case Text(s) => v.Str? && v.s == s
    case Number(n) => v.Num? && v.n == n
  }

  /** `===`; two arrays are never the same object. */
  predicate Identical(v: Json, e: Expected) {
    match e
    case One(x) => Is(v, x)
    case Truth(b) => v.Bool? && v.b == b
    case Many(_) => false
  }

  predicate Numbers(v: Json, e: Expected) {
    v.Num? && e.One? && e.scalar.Number?
  }

  predicate Includes(xs: seq<Scalar>, v: Json) {
    exists i :: 0 <= i < |xs| && Is(v, xs[i])
  }

  /** String.includes. */
  predicate HasText(s: string, t: string) {
    t <= s || (s != "" && HasText(s[1..], t))
  }

  lemma {:induction false} HasTextIs(s: string, t: string, a: string, b: string)
    requires s == a + t + b
    ensures HasText(s, t)
  {
    if a != "" {
      assert s[1..] == a[1..] + t + b;
      HasTextIs(s[1..], t, a[1..], b);
    }
  }

  lemma {:induction false} HasTextSplits(s: string, t: string) returns (a: string, b: string)
    requires HasText(s, t)
    ensures s == a + t + b
  {
    if t <= s {
      a, b := "", s[|t|..];
    } else {
      a, b := HasTextSplits(s[1..], t);
      a := [s[0]] + a;
    }
  }

  predicate Test(v: Json, op: Op, e: Expected) {
    match op
    case Eq => Identical(v, e)
    case Ne => !Identical(v, e)
    case Gt => Numbers(v, e) && v.n > e.scalar.n
    case Ge => Numbers(v, e) && v.n >= e.scalar.n
    case Lt => Numbers(v, e) && v.n < e.scalar.n
    case Le => Numbers(v, e) && v.n <= e.scalar.n
    case In => e.Many? && Includes(e.scalars, v)
    case NotIn => e.Many? && !Includes(e.scalars, v)
    case Contains => v.Str? && e.One? && e.scalar.Text? && HasText(v.s, e.scalar.s)
  }

  type Context = string -> Json

  predicate Eval(ast: AST, get: Context) {
    match ast
    case And(children) => |children| > 0 && forall i | 0 <= i < |children| :: Eval(children[i], get)
    case Or(children) => |children| > 0 && exists i :: 0 <= i < |children| && Eval(children[i], get)
    case Not(child) => !Eval(child, get)
    case Compare(field, op, value) => Test(get(field), op, value)
  }

  /** What the schema admits: no empty list. */
  predicate Valid(ast: AST) {
    match ast
    case And(children) => |children| > 0 && forall i | 0 <= i < |children| :: Valid(children[i])
    case Or(children) => |children| > 0 && forall i | 0 <= i < |children| :: Valid(children[i])
    case Not(child) => Valid(child)
    case Compare(_, _, _) => true
  }

  // ---- the ordinary meaning ----

  /** Truth as logic has it: the empty conjunction is true. */
  predicate Meaning(ast: AST, get: Context) {
    match ast
    case And(children) => forall i | 0 <= i < |children| :: Meaning(children[i], get)
    case Or(children) => exists i :: 0 <= i < |children| && Meaning(children[i], get)
    case Not(child) => !Meaning(child, get)
    case Compare(field, op, value) => Test(get(field), op, value)
  }

  predicate NoEmptyAnd(ast: AST) {
    match ast
    case And(children) => |children| > 0 && forall i | 0 <= i < |children| :: NoEmptyAnd(children[i])
    case Or(children) => forall i | 0 <= i < |children| :: NoEmptyAnd(children[i])
    case Not(child) => NoEmptyAnd(child)
    case Compare(_, _, _) => true
  }

  /** Without an empty and, and so on everything the schema admits, a condition means what logic says. */
  lemma {:induction false} EvalIsMeaning(ast: AST, get: Context)
    requires NoEmptyAnd(ast)
    ensures Eval(ast, get) == Meaning(ast, get)
  {
    match ast {
      case And(children) =>
        forall i | 0 <= i < |children| ensures Eval(children[i], get) == Meaning(children[i], get) {
          EvalIsMeaning(children[i], get);
        }
      case Or(children) =>
        forall i | 0 <= i < |children| ensures Eval(children[i], get) == Meaning(children[i], get) {
          EvalIsMeaning(children[i], get);
        }
      case Not(child) => EvalIsMeaning(child, get);
      case Compare(_, _, _) =>
    }
  }

  lemma {:induction false} ValidHasNoEmptyAnd(ast: AST)
    requires Valid(ast)
    ensures NoEmptyAnd(ast)
  {
    match ast {
      case And(children) => forall i | 0 <= i < |children| ensures NoEmptyAnd(children[i]) { ValidHasNoEmptyAnd(children[i]); }
      case Or(children) => forall i | 0 <= i < |children| ensures NoEmptyAnd(children[i]) { ValidHasNoEmptyAnd(children[i]); }
      case Not(child) => ValidHasNoEmptyAnd(child);
      case Compare(_, _, _) =>
    }
  }

  // ---- laws and where they fail ----

  function Nots(xs: seq<AST>): (r: seq<AST>)
    ensures |r| == |xs|
    ensures forall i | 0 <= i < |xs| :: r[i] == Not(xs[i])
  {
    if xs == [] then [] else [Not(xs[0])] + Nots(xs[1..])
  }

  ghost predicate All(xs: seq<AST>, get: Context) {
    forall i | 0 <= i < |xs| :: Eval(xs[i], get)
  }

  ghost predicate Any(xs: seq<AST>, get: Context) {
    exists i :: 0 <= i < |xs| && Eval(xs[i], get)
  }

  lemma EvalLists(xs: seq<AST>, get: Context)
    ensures Eval(And(xs), get) <==> xs != [] && All(xs, get)
    ensures Eval(Or(xs), get) <==> Any(xs, get)
  {
  }

  /** Of two lists each of whose conditions negates the other's. */
  lemma Opposite(xs: seq<AST>, ns: seq<AST>, get: Context)
    requires |ns| == |xs| && forall i | 0 <= i < |xs| :: Eval(ns[i], get) == !Eval(xs[i], get)
    ensures Any(ns, get) <==> !All(xs, get)
    ensures All(ns, get) <==> !Any(xs, get)
  {
    if i :| 0 <= i < |ns| && Eval(ns[i], get) { assert !Eval(xs[i], get); }
    if i :| 0 <= i < |xs| && !Eval(xs[i], get) { assert Eval(ns[i], get); }
    if i :| 0 <= i < |xs| && Eval(xs[i], get) { assert !Eval(ns[i], get); }
    if i :| 0 <= i < |ns| && !Eval(ns[i], get) { assert Eval(xs[i], get); }
  }

  lemma Equal(xs: seq<AST>, ys: seq<AST>, get: Context)
    requires |ys| == |xs| && forall i | 0 <= i < |xs| :: Eval(ys[i], get) == Eval(xs[i], get)
    ensures Any(ys, get) <==> Any(xs, get)
    ensures All(ys, get) <==> All(xs, get)
  {
    if i :| 0 <= i < |ys| && Eval(ys[i], get) { assert Eval(xs[i], get); }
    if i :| 0 <= i < |xs| && Eval(xs[i], get) { assert Eval(ys[i], get); }
    if All(xs, get) { forall i | 0 <= i < |ys| ensures Eval(ys[i], get) { assert Eval(xs[i], get); } }
    if All(ys, get) { forall i | 0 <= i < |xs| ensures Eval(xs[i], get) { assert Eval(ys[i], get); } }
  }

  lemma NotsAreOpposite(xs: seq<AST>, get: Context)
    ensures Any(Nots(xs), get) <==> !All(xs, get)
    ensures All(Nots(xs), get) <==> !Any(xs, get)
  {
    var ns := Nots(xs);
    forall i | 0 <= i < |xs| ensures Eval(ns[i], get) == !Eval(xs[i], get) {
      assert ns[i] == Not(xs[i]);
    }
    Opposite(xs, ns, get);
  }

  /** De Morgan's laws hold exactly for non-empty lists. */
  lemma DeMorgan(xs: seq<AST>, get: Context)
    ensures Eval(Not(And(xs)), get) == Eval(Or(Nots(xs)), get) <==> xs != []
    ensures Eval(Not(Or(xs)), get) == Eval(And(Nots(xs)), get) <==> xs != []
  {
    NotsAreOpposite(xs, get);
    EvalLists(xs, get);
    EvalLists(Nots(xs), get);
  }

  /** An inner and can be merged into an outer one unless it is empty and the rest is true. */
  lemma FlattenAnd(pre: seq<AST>, inner: seq<AST>, post: seq<AST>, get: Context)
    ensures Eval(And(pre + [And(inner)] + post), get) == Eval(And(pre + inner + post), get)
      <==> inner != [] || !Eval(And(pre + post), get)
  {
    var xs, ys := pre + [And(inner)] + post, pre + inner + post;
    EvalLists(xs, get);
    EvalLists(ys, get);
    EvalLists(inner, get);
    AllOf(pre, inner, post, get);
    AllOf(pre, [And(inner)], post, get);
    assert All([And(inner)], get) <==> Eval([And(inner)][0], get);
    assert inner == [] ==> ys == pre + post;
  }

  lemma AllOf(a: seq<AST>, b: seq<AST>, c: seq<AST>, get: Context)
    ensures All(a + b + c, get) <==> All(a, get) && All(b, get) && All(c, get)
  {
    var s := a + b + c;
    assert forall i | 0 <= i < |a| :: s[i] == a[i];
    assert forall i | 0 <= i < |b| :: s[|a| + i] == b[i];
    assert forall i | 0 <= i < |c| :: s[|a| + |b| + i] == c[i];
    if All(s, get) {
      forall i | 0 <= i < |a| ensures Eval(a[i], get) { assert Eval(s[i], get); }
      forall i | 0 <= i < |b| ensures Eval(b[i], get) { assert Eval(s[|a| + i], get); }
      forall i | 0 <= i < |c| ensures Eval(c[i], get) { assert Eval(s[|a| + |b| + i], get); }
    }
  }

  lemma AnyOf(a: seq<AST>, b: seq<AST>, c: seq<AST>, get: Context)
    ensures Any(a + b + c, get) <==> Any(a, get) || Any(b, get) || Any(c, get)
  {
    var s := a + b + c;
    if i :| 0 <= i < |a| && Eval(a[i], get) { assert s[i] == a[i]; }
    if i :| 0 <= i < |b| && Eval(b[i], get) { assert s[|a| + i] == b[i]; }
    if i :| 0 <= i < |c| && Eval(c[i], get) { assert s[|a| + |b| + i] == c[i]; }
  }

  /** An inner or can always be merged into an outer one, even an empty one. */
  lemma FlattenOr(pre: seq<AST>, inner: seq<AST>, post: seq<AST>, get: Context)
    ensures Eval(Or(pre + [Or(inner)] + post), get) == Eval(Or(pre + inner + post), get)
  {
    AnyOf(pre, inner, post, get);
    AnyOf(pre, [Or(inner)], post, get);
    EvalLists(inner, get);
    EvalLists(pre + inner + post, get);
    EvalLists(pre + [Or(inner)] + post, get);
    assert Any([Or(inner)], get) <==> Eval([Or(inner)][0], get);
  }

  /** The negation of an order comparison is the opposite comparison exactly between two numbers. */
  lemma NegatedOrder(v: Json, e: Expected)
    ensures !Test(v, Gt, e) == Test(v, Le, e) <==> Numbers(v, e)
    ensures !Test(v, Lt, e) == Test(v, Ge, e) <==> Numbers(v, e)
    ensures !Test(v, Eq, e) == Test(v, Ne, e)
    ensures !Test(v, In, e) == Test(v, NotIn, e) <==> e.Many?
  {
  }

  // ---- comparisons ----

  /** A comparison of a field with a number. */
  function Versus(field: string, op: Op, n: real): AST {
    Compare(field, op, One(Number(n)))
  }

  /** Of a number exactly one of <, == and > holds, by the order of the numbers; <=, >= and != follow from them. */
  lemma NumbersAreOrdered(field: string, n: real, get: Context)
    requires get(field).Num?
    ensures Eval(Versus(field, Gt, n), get) <==> n < get(field).n
    ensures Eval(Versus(field, Eq, n), get) <==> n == get(field).n
    ensures Eval(Versus(field, Lt, n), get) <==> !Eval(Versus(field, Gt, n), get) && !Eval(Versus(field, Eq, n), get)
    ensures Eval(Versus(field, Ge, n), get) <==> Eval(Versus(field, Gt, n), get) || Eval(Versus(field, Eq, n), get)
    ensures Eval(Versus(field, Le, n), get) <==> Eval(Versus(field, Lt, n), get) || Eval(Versus(field, Eq, n), get)
    ensures Eval(Versus(field, Ne, n), get) <==> !Eval(Versus(field, Eq, n), get)
  {
  }

  /** Raising a field keeps > and >= true, lowering it keeps < and <= true. */
  lemma ComparisonsAreMonotone(field: string, n: real, low: Context, high: Context)
    requires low(field).Num? && high(field).Num? && low(field).n <= high(field).n
    ensures Eval(Versus(field, Gt, n), low) ==> Eval(Versus(field, Gt, n), high)
    ensures Eval(Versus(field, Ge, n), low) ==> Eval(Versus(field, Ge, n), high)
    ensures Eval(Versus(field, Lt, n), high) ==> Eval(Versus(field, Lt, n), low)
    ensures Eval(Versus(field, Le, n), high) ==> Eval(Versus(field, Le, n), low)
    ensures low(field).n < high(field).n ==> Eval(Versus(field, Gt, low(field).n), high) && Eval(Versus(field, Lt, high(field).n), low)
  {
  }

  predicate IsOrder(op: Op) {
    op.Gt? || op.Ge? || op.Lt? || op.Le?
  }

  /** An order comparison with anything but two numbers is false. */
  lemma OrderNeedsNumbers(field: string, op: Op, e: Expected, get: Context)
    requires IsOrder(op) && Eval(Compare(field, op, e), get)
    ensures get(field).Num? && e.One? && e.scalar.Number?
  {
  }

  /** Equality is that of type and value; an array equals nothing. */
  lemma EqualityIsExact(field: string, e: Expected, get: Context)
    ensures Eval(Compare(field, Eq, e), get) <==>
      match e
      case One(Text(s)) => get(field) == Str(s)
      case One(Number(n)) => get(field) == Num(n)
      case Truth(b) => get(field) == Bool(b)
      case Many(_) => false
    ensures Eval(Compare(field, Ne, e), get) <==> !Eval(Compare(field, Eq, e), get)
  {
  }

  /** Membership in a list is equality with one of its members; its negation also needs a list. */
  lemma MembershipIsEquality(field: string, xs: seq<Scalar>, get: Context)
    ensures Eval(Compare(field, In, Many(xs)), get) <==>
      exists i :: 0 <= i < |xs| && Eval(Compare(field, Eq, One(xs[i])), get)
    ensures Eval(Compare(field, NotIn, Many(xs)), get) <==>
      forall i | 0 <= i < |xs| :: Eval(Compare(field, Ne, One(xs[i])), get)
  {
    if i :| 0 <= i < |xs| && Eval(Compare(field, Eq, One(xs[i])), get) { assert Is(get(field), xs[i]); }
    if i :| 0 <= i < |xs| && Is(get(field), xs[i]) { assert Eval(Compare(field, Eq, One(xs[i])), get); }
  }

  lemma ListsOnly(field: string, e: Expected, get: Context)
    requires Eval(Compare(field, In, e), get) || Eval(Compare(field, NotIn, e), get)
    ensures e.Many?
  {
  }

  /** A text contains another exactly if it can be cut into something, that text, and something. */
  lemma ContainsIsCutting(field: string, e: Expected, get: Context)
    ensures Eval(Compare(field, Contains, e), get) <==>
      exists a: string, t: string, b: string {:trigger a + t + b} :: get(field) == Str(a + t + b) && e == One(Text(t))
  {
    if Eval(Compare(field, Contains, e), get) {
      var a, b := HasTextSplits(get(field).s, e.scalar.s);
      assert get(field) == Str(a + e.scalar.s + b);
    }
    if a: string, t: string, b: string {:trigger a + t + b} :| get(field) == Str(a + t + b) && e == One(Text(t)) {
      HasTextIs(a + t + b, t, a, b);
    }
  }

  // ---- normal forms ----

  /** Negations pushed down to the comparisons. */
  function Nnf(ast: AST): AST
    decreases ast, 1
  {
    match ast
    case And(children) => And(seq(|children|, i requires 0 <= i < |children| => Nnf(children[i])))
    case Or(children) => Or(seq(|children|, i requires 0 <= i < |children| => Nnf(children[i])))
    case Not(child) => NnfNot(child)
    case Compare(_, _, _) => ast
  }

  /** The same of the negation of a condition. */
  function NnfNot(ast: AST): AST
    decreases ast, 0
  {
    match ast
    case And(children) => Or(seq(|children|, i requires 0 <= i < |children| => NnfNot(children[i])))
    case Or(children) => And(seq(|children|, i requires 0 <= i < |children| => NnfNot(children[i])))
    case Not(child) => Nnf(child)
    case Compare(_, _, _) => Not(ast)
  }

  predicate Negationless(ast: AST) {
    match ast
    case And(children) => forall i | 0 <= i < |children| :: Negationless(children[i])
    case Or(children) => forall i | 0 <= i < |children| :: Negationless(children[i])
    case Not(child) => child.Compare?
    case Compare(_, _, _) => true
  }

  predicate NormalForm(ast: AST) {
    Valid(ast) && Negationless(ast)
  }

  /** On what the schema admits, pushing negations down changes no result, and the result is admitted again. */
  lemma {:induction false} NnfPreserves(ast: AST, get: Context)
    requires Valid(ast)
    ensures Eval(Nnf(ast), get) == Eval(ast, get) && NormalForm(Nnf(ast))
    decreases ast, 1
  {
    if ast.And? || ast.Or? {
      var xs, ys := ast.children, Nnf(ast).children;
      forall i | 0 <= i < |xs| ensures Eval(ys[i], get) == Eval(xs[i], get) && NormalForm(ys[i]) {
        NnfPreserves(xs[i], get);
      }
      Equal(xs, ys, get);
      EvalLists(xs, get);
      EvalLists(ys, get);
    } else if ast.Not? {
      NnfNotPreserves(ast.child, get);
    }
  }

  lemma {:induction false} NnfNotPreserves(ast: AST, get: Context)
    requires Valid(ast)
    ensures Eval(NnfNot(ast), get) == !Eval(ast, get) && NormalForm(NnfNot(ast))
    decreases ast, 0
  {
    if ast.And? || ast.Or? {
      var xs, ys := ast.children, NnfNot(ast).children;
      forall i | 0 <= i < |xs| ensures Eval(ys[i], get) == !Eval(xs[i], get) && NormalForm(ys[i]) {
        NnfNotPreserves(xs[i], get);
      }
      Opposite(xs, ys, get);
      EvalLists(xs, get);
      EvalLists(ys, get);
    } else if ast.Not? {
      NnfPreserves(ast.child, get);
    }
  }

  // ---- what a result depends on ----

  ghost predicate Names(ast: AST, path: string) {
    match ast
    case And(children) => exists i :: 0 <= i < |children| && Names(children[i], path)
    case Or(children) => exists i :: 0 <= i < |children| && Names(children[i], path)
    case Not(child) => Names(child, path)
    case Compare(field, _, _) => field == path
  }

  /** Only the values at the fields a condition names matter. */
  lemma {:induction false} DependsOnNamedFields(ast: AST, g: Context, h: Context)
    requires forall path | Names(ast, path) :: g(path) == h(path)
    ensures Eval(ast, g) == Eval(ast, h)
  {
    match ast {
      case And(children) =>
        forall i | 0 <= i < |children| ensures Eval(children[i], g) == Eval(children[i], h) {
          forall path | Names(children[i], path) ensures g(path) == h(path) { assert Names(ast, path); }
          DependsOnNamedFields(children[i], g, h);
        }
      case Or(children) =>
        forall i | 0 <= i < |children| ensures Eval(children[i], g) == Eval(children[i], h) {
          forall path | Names(children[i], path) ensures g(path) == h(path) { assert Names(ast, path); }
          DependsOnNamedFields(children[i], g, h);
        }
      case Not(child) => DependsOnNamedFields(child, g, h);
      case Compare(field, _, _) => assert Names(ast, field);
    }
  }

  /** How one more character in front changes the parts. */
  function Prepend(c: char, parts: seq<string>): seq<string>
    requires |parts| >= 1
  {
    if c == '.' then [""] + parts else [[c] + parts[0]] + parts[1..]
  }

  lemma SplitCons(c: char, s: string)
    ensures Split([c] + s) == Prepend(c, Split(s))
  {
    assert ([c] + s)[1..] == s;
  }

  lemma PrependAppend(c: char, a: seq<string>, b: seq<string>)
    requires |a| >= 1
    ensures Prepend(c, a + b) == Prepend(c, a) + b
  {
  }

  lemma {:induction false} SplitAppend(p: string, q: string)
    ensures Split(p + "." + q) == Split(p) + Split(q)
  {
    if p == "" {
      assert p + "." + q == ['.'] + q;
      SplitCons('.', q);
    } else {
      SplitAppend(p[1..], q);
      assert p + "." + q == [p[0]] + (p[1..] + "." + q) && p == [p[0]] + p[1..];
      SplitCons(p[0], p[1..] + "." + q);
      SplitCons(p[0], p[1..]);
      PrependAppend(p[0], Split(p[1..]), Split(q));
    }
  }

  lemma {:induction false} FollowAppend(inherited: set<string>, v: Json, a: seq<string>, b: seq<string>)
    ensures Follow(inherited, v, a + b) == Follow(inherited, Follow(inherited, v, a), b)
  {
    if b == [] {
      assert a + b == a;
    } else {
      FollowAppend(inherited, v, a, b[..|b| - 1]);
      assert (a + b)[..|a + b| - 1] == a + b[..|b| - 1];
    }
  }

  /** A dotted path is followed part by part: the value of "p.q" is the value of "q" within that of "p". */
  lemma PathsCompose(inherited: set<string>, v: Json, p: string, q: string)
    ensures GetNestedValue(inherited, v, p + "." + q) == GetNestedValue(inherited, GetNestedValue(inherited, v, p), q)
  {
    SplitAppend(p, q);
    FollowAppend(inherited, v, Split(p), Split(q));
  }

  /** A name without a dot is looked up as it is. */
  lemma {:induction false} PlainName(inherited: set<string>, v: Json, name: string)
    requires '.' !in name
    ensures Split(name) == [name] && GetNestedValue(inherited, v, name) == Property(inherited, v, name)
  {
    if name != "" {
      PlainName(inherited, v, name[1..]);
      assert name == [name[0]] + name[1..] && name[0] in name;
    }
    assert [name][..0] == [] && Follow(inherited, v, [name]) == Property(inherited, Follow(inherited, v, []), name);
  }
}
