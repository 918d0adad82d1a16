/** pkg/filter: a tree of column filters turned into a squirrel condition.
    squirrel's `Sqlizer` values are modelled by the `Sqlizer` datatype. */
module Filter {

  type U8 = x: int | 0 <= x < 256

  const TypeEQ: U8 := 1
  const TypeNotEQ: U8 := 2
  const TypeGTE: U8 := 3
  const TypeGT: U8 := 4
  const TypeLT: U8 := 5
  const TypeLTE: U8 := 6
  const TypeLike: U8 := 7
  const TypeNotLike: U8 := 8
  const TypeILike: U8 := 9
  const TypeNotILike: U8 := 10

  const OperatorAnd: U8 := 1
  const OperatorOr: U8 := 2

  datatype Filter<V> = Filter(column: string, ftype: U8, operator: U8, filters: seq<Filter<V>>, value: V)

  /** squirrel's single-column comparisons `Eq{col: v}`, `NotEq{...}`, ... */
  datatype Comparison = Eq | NotEq | GtOrEq | Gt | Lt | LtOrEq | Like | NotLike | ILike | NotILike

  datatype Sqlizer<V> =
    | Compare(op: Comparison, column: string, value: V)
    | And(conjuncts: seq<Sqlizer<V>>)
    | Or(disjuncts: seq<Sqlizer<V>>)

  /** `New`: operator And and no children. */
  function New<V>(column: string, ftype: U8, value: V): (f: Filter<V>)
    ensures f.column == column && f.ftype == ftype && f.value == value
    ensures f.operator == OperatorAnd && f.filters == []
  {
    Filter(column, ftype, OperatorAnd, [], value)
  }

  /** `SetOperator`: only the operator changes. */
  function SetOperator<V>(f: Filter<V>, operator: U8): (r: Filter<V>)
    ensures r.operator == operator
    ensures r.(operator := f.operator) == f
  {
    f.(operator := operator)
  }

  /** `WithFilters`: the new children follow the existing ones, in order. */
  function WithFilters<V>(f: Filter<V>, filters: seq<Filter<V>>): (r: Filter<V>)
    ensures |r.filters| == |f.filters| + |filters|
    ensures r.filters[..|f.filters|] == f.filters && r.filters[|f.filters|..] == filters
    ensures r.(filters := f.filters) == f
  {
    f.(filters := f.filters + filters)
  }

  /** The comparison the `condition` switch picks for a filter type; any type
      outside 1..10 (0 included) falls back to `Eq`. */
  function ComparisonOf(t: U8): Comparison
  {
    if t == TypeEQ then Eq
    else if t == TypeNotEQ then NotEq
    else if t == TypeGTE then GtOrEq
    else if t == TypeGT then Gt
    else if t == TypeLT then Lt
    else if t == TypeLTE then LtOrEq
    else if t == TypeLike then Like
    else if t == TypeNotLike then NotLike
    else if t == TypeILike then ILike
    else if t == TypeNotILike then NotILike
    else Eq
  }

  /** The type each comparison stands for. */
  function TypeOf(c: Comparison): U8
  {
    match c
    case Eq => TypeEQ
    case NotEq => TypeNotEQ
    case GtOrEq => TypeGTE
    case Gt => TypeGT
    case Lt => TypeLT
    case LtOrEq => TypeLTE
    case Like => TypeLike
    case NotLike => TypeNotLike
    case ILike => TypeILike
    case NotILike => TypeNotILike
  }

  /** The ten declared types map one-to-one onto the ten comparisons; every
      other type value maps to `Eq`. */
  lemma ComparisonOfTypes(t: U8, c: Comparison)
    ensures ComparisonOf(TypeOf(c)) == c
    ensures 1 <= t <= 10 ==> TypeOf(ComparisonOf(t)) == t
    ensures !(1 <= t <= 10) ==> ComparisonOf(t) == Eq
  {
  }

  /** `condition`: the filter's own comparison on its column and value. */
  function Condition<V>(f: Filter<V>): (s: Sqlizer<V>)
    ensures s.Compare? && s.column == f.column && s.value == f.value
    ensures s.op == ComparisonOf(f.ftype)
  {
    Compare(ComparisonOf(f.ftype), f.column, f.value)
  }

  /** `getConditions`: a childless filter is its own condition; otherwise its
      own condition followed by each child's conditions, joined by Or when the
      operator is Or and by And for any other operator value. */
  function GetConditions<V>(f: Filter<V>): (s: Sqlizer<V>)
    ensures |f.filters| == 0 <==> s.Compare?
    ensures |f.filters| == 0 ==> s == Condition(f)
    ensures s.Or? <==> |f.filters| > 0 && f.operator == OperatorOr
    ensures s.And? <==> |f.filters| > 0 && f.operator != OperatorOr
    ensures s.Or? ==> s.disjuncts == [Condition(f)] + ChildConditions(f.filters)
    ensures s.And? ==> s.conjuncts == [Condition(f)] + ChildConditions(f.filters)
    decreases f, 1
  {
    if |f.filters| == 0 then Condition(f)
    else
      var conditions := [Condition(f)] + ChildConditions(f.filters);
      if f.operator == OperatorOr then Or(conditions) else And(conditions)
  }

  /** The loop of `getConditions` over the children. */
  function ChildConditions<V>(fs: seq<Filter<V>>): (cs: seq<Sqlizer<V>>)
    ensures |cs| == |fs|
    ensures forall i :: 0 <= i < |fs| ==> cs[i] == GetConditions(fs[i])
    decreases fs, 0
  {
    if fs == [] then [] else [GetConditions(fs[0])] + ChildConditions(fs[1..])
  }

  /** Number of filter nodes in a tree. */
  function NodeCount<V>(f: Filter<V>): nat
    decreases f, 1
  {
    1 + NodeCountAll(f.filters)
  }

  function NodeCountAll<V>(fs: seq<Filter<V>>): nat
    decreases fs, 0
  {
    if fs == [] then 0 else NodeCount(fs[0]) + NodeCountAll(fs[1..])
  }

  /** Number of single-column comparisons in a condition. */
  function Leaves<V>(s: Sqlizer<V>): nat
    decreases s, 1
  {
    match s
    case Compare(_, _, _) => 1
    case And(cs) => LeavesAll(cs)
    case Or(cs) => LeavesAll(cs)
  }

  function LeavesAll<V>(cs: seq<Sqlizer<V>>): nat
    decreases cs, 0
  {
    if cs == [] then 0 else Leaves(cs[0]) + LeavesAll(cs[1..])
  }

  /** Every filter node contributes exactly one comparison to the condition. */
  lemma {:induction false} LeavesMatchNodes<V>(f: Filter<V>)
    ensures Leaves(GetConditions(f)) == NodeCount(f)
    decreases f, 1
  {
    if |f.filters| > 0 {
      LeavesMatchNodesAll(f.filters);
      var conditions := [Condition(f)] + ChildConditions(f.filters);
      assert conditions[0] == Condition(f) && conditions[1..] == ChildConditions(f.filters);
      assert LeavesAll(conditions) == 1 + LeavesAll(ChildConditions(f.filters));
    }
  }

  lemma {:induction false} LeavesMatchNodesAll<V>(fs: seq<Filter<V>>)
    ensures LeavesAll(ChildConditions(fs)) == NodeCountAll(fs)
    decreases fs, 0
  {
    if fs != [] {
      LeavesMatchNodes(fs[0]);
      LeavesMatchNodesAll(fs[1..]);
      var cs := ChildConditions(fs);
      assert cs[0] == GetConditions(fs[0]) && cs[1..] == ChildConditions(fs[1..]);
    }
  }

  /** Building a filter with children and an operator: the condition is the
      parent's comparison followed by the children's conditions, under Or
      exactly when the operator is Or. */
  lemma BuiltTree<V>(column: string, ftype: U8, value: V, operator: U8, children: seq<Filter<V>>)
    requires children != []
    ensures var f := WithFilters(SetOperator(New(column, ftype, value), operator), children);
      var own := Compare(ComparisonOf(ftype), column, value);
      && (operator == OperatorOr ==> GetConditions(f) == Or([own] + ChildConditions(children)))
      && (operator != OperatorOr ==> GetConditions(f) == And([own] + ChildConditions(children)))
      && ChildConditions(children)[0] == GetConditions(children[0])
  {
    assert [] + children == children;
  }

  /** squirrel's `SelectBuilder`, as far as its WHERE clauses go. */
  datatype SelectBuilder<V> = SelectBuilder(wheres: seq<Sqlizer<V>>)

  /** `UseSelectBuilder`: adds the whole tree's condition as one more WHERE clause. */
  function UseSelectBuilder<V>(f: Filter<V>, sb: SelectBuilder<V>): (r: SelectBuilder<V>)
    ensures |r.wheres| == |sb.wheres| + 1 && r.wheres[..|sb.wheres|] == sb.wheres
    ensures Leaves(r.wheres[|sb.wheres|]) == NodeCount(f)
  {
    LeavesMatchNodes(f);
    SelectBuilder(sb.wheres + [GetConditions(f)])
  }

  /** `and`: copies the conditions, in order, into a conjunction. */
  method AndOf<V>(conditions: seq<Sqlizer<V>>) returns (result: Sqlizer<V>)
    ensures result == And(conditions)
  {
    var parts: seq<Sqlizer<V>> := [];
    var i := 0;
    while i < |conditions|
      invariant 0 <= i <= |conditions|
      invariant parts == conditions[..i]
    {
      parts := parts + [conditions[i]];
      i := i + 1;
    }
    assert conditions[..|conditions|] == conditions;
    result := And(parts);
  }

  /** `or`: copies the conditions, in order, into a disjunction. */
  method OrOf<V>(conditions: seq<Sqlizer<V>>) returns (result: Sqlizer<V>)
    ensures result == Or(conditions)
  {
    var parts: seq<Sqlizer<V>> := [];
    var i := 0;
    while i < |conditions|
      invariant 0 <= i <= |conditions|
      invariant parts == conditions[..i]
    {
      parts := parts + [conditions[i]];
      i := i + 1;
    }
    assert conditions[..|conditions|] == conditions;
    result := Or(parts);
  }
}
