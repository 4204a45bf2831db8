/**
 * The code that `#[derive(Builder)]` emits, run against a schema it derived: the
 * builder struct with one `Option` slot or `Vec` per field, `Record::builder()`,
 * the setters and accessors, and `build(&self)`.  Field values of every type are
 * values of the type parameter `V`; `clone()` of an immutable value is the value.
 */
module Generated {

  import opened Wrappers
  import opened Derivation

  /** The content of one builder field: an `Option<T>` slot or a `Vec<T>`. */
  datatype Cell<V> = Slot(content: Option<V>) | List(items: seq<V>)

  /** One field of the assembled record: a required value, an optional value, or a list. */
  datatype FieldValue<V> = Value(v: V) | MaybeValue(o: Option<V>) | Values(vs: seq<V>)

  /** The only way `build` fails. */
  datatype BuildError = MissingField(name: string)

  /** The builder's fields match the schema: a list where it declares a `Vec`, a slot
      where it declares an `Option`. */
  predicate CellsFit<V>(s: BuilderSchema, cells: seq<Cell<V>>) {
    WellFormed(s) && |cells| == |s.storage| &&
    forall i :: 0 <= i < |cells| ==> (cells[i].List? <==> s.storage[i].storage.ListOf?)
  }

  /** The fields of `Record::builder()`: `vec![]` or `None`, as the schema says. */
  function InitialCells<V>(s: BuilderSchema): (cells: seq<Cell<V>>)
    requires WellFormed(s)
    ensures CellsFit(s, cells)
    ensures forall i :: 0 <= i < |cells| ==> cells[i] == List([]) || cells[i] == Slot(None)
  {
    seq(|s.init|, i requires 0 <= i < |s.init| =>
      match s.init[i]
      case EmptyList => List([])
      case NoneValue => Slot(None))
  }

  /** A field `build` rejects: a required field whose slot is empty. */
  predicate Missing<V>(s: BuilderSchema, cells: seq<Cell<V>>, i: nat)
    requires CellsFit(s, cells) && i < |cells|
  {
    s.rules[i].mode == CloneOrMissing && cells[i] == Slot(None)
  }

  /** The value `build` puts in the record for one field, or its failure. */
  function TakeField<V>(rule: BuildRule, c: Cell<V>): Result<FieldValue<V>, BuildError>
    requires rule.mode == CloneOrMissing ==> c.Slot?
  {
    match c
    case List(xs) => Success(Values(xs))
    case Slot(o) =>
      if rule.mode == CloneAsIs then Success(MaybeValue(o))
      else if o.Some? then Success(Value(o.value))
      else Failure(MissingField(rule.field))
  }

  /** The fields from `k` on, read in declaration order; the first missing one stops
      the assembly and is the one reported. */
  function AssembleFrom<V>(s: BuilderSchema, cells: seq<Cell<V>>, k: nat): (r: Result<seq<FieldValue<V>>, BuildError>)
    requires CellsFit(s, cells) && k <= |cells|
    ensures r.Success? <==> forall i :: k <= i < |cells| ==> !Missing(s, cells, i)
    ensures r.Success? ==> |r.value| == |cells| - k
    decreases |cells| - k
  {
    if k == |cells| then Success([])
    else
      match TakeField(s.rules[k], cells[k])
      case Failure(e) =>
        assert Missing(s, cells, k);
        Failure(e)
      case Success(v) =>
        var rest :- AssembleFrom(s, cells, k + 1);
        Success([v] + rest)
  }

  /** What `build` returns for the builder's current fields. */
  function Assemble<V>(s: BuilderSchema, cells: seq<Cell<V>>): Result<seq<FieldValue<V>>, BuildError>
    requires CellsFit(s, cells)
  {
    AssembleFrom(s, cells, 0)
  }

  /** The contents of a list after one accessor call. */
  function Pushed<V>(c: Cell<V>, v: V): Cell<V>
    requires c.List?
  {
    List(c.items + [v])
  }

  /** The contents of a list after one accessor call per element of `vs`, in order. */
  function PushedAll<V>(c: Cell<V>, vs: seq<V>): Cell<V>
    requires c.List?
    decreases |vs|
  {
    if vs == [] then c else PushedAll(Pushed(c, vs[0]), vs[1..])
  }

  /** The generated builder struct and its methods. */
  class Builder<V> {
    const schema: BuilderSchema
    var cells: seq<Cell<V>>

    ghost predicate Valid()
      reads this
    {
      CellsFit(schema, cells)
    }

    /** `Record::builder()`: every list empty, every slot `None`. */
    constructor (s: BuilderSchema)
      requires WellFormed(s)
      ensures Valid() && schema == s
      ensures cells == InitialCells(s)
    {
      schema := s;
      cells := InitialCells(s);
    }

    /** The setter of field `i`: `self.field = Some(value); self`. */
    method Set(i: nat, value: V) returns (chain: Builder<V>)
      requires Valid() && i < |cells| && schema.mutators[i].mode == Overwrite
      modifies this
      ensures Valid() && chain == this
      ensures cells == old(cells)[i := Slot(Some(value))]
    {
      cells := cells[i := Slot(Some(value))];
      chain := this;
    }

    /** The accessor of field `i`: `self.field.push(value); self`. */
    method Push(i: nat, value: V) returns (chain: Builder<V>)
      requires Valid() && i < |cells| && schema.mutators[i].mode == Append
      modifies this
      ensures Valid() && chain == this
      ensures old(cells)[i].List? && cells == old(cells)[i := Pushed(old(cells)[i], value)]
    {
      cells := cells[i := List(cells[i].items + [value])];
      chain := this;
    }

    /** `build(&self)`: the record's fields in declaration order, each initialiser
        evaluated in turn, the first `?` on an empty required slot returning early. */
    method Build() returns (r: Result<seq<FieldValue<V>>, BuildError>)
      requires Valid()
      ensures r == Assemble(schema, cells)
      ensures r.Success? <==> forall i :: 0 <= i < |cells| ==> !Missing(schema, cells, i)
    {
      var values: seq<FieldValue<V>> := [];
      var k := 0;
      ghost var whole := AssembleFrom(schema, cells, 0);
      assert whole.Success? ==> [] + whole.value == whole.value;
      while k < |cells|
        invariant 0 <= k <= |cells|
        invariant Assemble(schema, cells) == Prefixed(values, AssembleFrom(schema, cells, k))
      {
        var v;
        match cells[k] {
          case List(xs) =>
            v := Values(xs);
          case Slot(o) =>
            if schema.rules[k].mode == CloneAsIs {
              v := MaybeValue(o);
            } else if o.Some? {
              v := Value(o.value);
            } else {
              return Failure(MissingField(schema.rules[k].field));
            }
        }
        assert AssembleFrom(schema, cells, k) == Prefixed([v], AssembleFrom(schema, cells, k + 1));
        PrefixedAppend(values, v, AssembleFrom(schema, cells, k + 1));
        values := values + [v];
        k := k + 1;
      }
      assert values + [] == values;
      r := Success(values);
    }
  }

  /** `values` followed by a result's fields, or the result's failure. */
  function Prefixed<V>(values: seq<FieldValue<V>>, r: Result<seq<FieldValue<V>>, BuildError>): Result<seq<FieldValue<V>>, BuildError> {
    match r
    case Success(rest) => Success(values + rest)
    case Failure(e) => Failure(e)
  }

  lemma PrefixedAppend<V>(values: seq<FieldValue<V>>, v: FieldValue<V>, r: Result<seq<FieldValue<V>>, BuildError>)
    ensures Prefixed(values, Prefixed([v], r)) == Prefixed(values + [v], r)
  {
    if r.Success? {
      assert values + ([v] + r.value) == (values + [v]) + r.value;
    }
  }
}
