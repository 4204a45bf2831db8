/** What `build` and the accessors promise, proved of their specification functions. */
module BuildLemmas {

  import opened Wrappers
  import opened Derivation
  import opened Generated

  /** A successful build copies each field out of the builder: a list as it stands,
      an optional slot as it stands, a required slot's value. */
  lemma {:induction false} AssembledFieldsFrom<V>(s: BuilderSchema, cells: seq<Cell<V>>, k: nat, i: nat)
    requires CellsFit(s, cells) && k <= i < |cells| && AssembleFrom(s, cells, k).Success?
    ensures var value := AssembleFrom(s, cells, k).value[i - k];
      (cells[i].List? ==> value == Values(cells[i].items)) &&
      (cells[i].Slot? && s.rules[i].mode == CloneAsIs ==> value == MaybeValue(cells[i].content)) &&
      (s.rules[i].mode == CloneOrMissing ==>
         cells[i].content.Some? && value == Value(cells[i].content.value))
    decreases i - k
  {
    if k < i {
      AssembledFieldsFrom(s, cells, k + 1, i);
    }
  }

  /** The whole record: one value per field, in declaration order, each copied from
      the builder as its read rule says. */
  lemma AssembledFields<V>(s: BuilderSchema, cells: seq<Cell<V>>)
    requires CellsFit(s, cells) && Assemble(s, cells).Success?
    ensures |Assemble(s, cells).value| == |cells|
    ensures forall i :: 0 <= i < |cells| ==>
      var value := Assemble(s, cells).value[i];
      (cells[i].List? ==> value == Values(cells[i].items)) &&
      (cells[i].Slot? && s.rules[i].mode == CloneAsIs ==> value == MaybeValue(cells[i].content)) &&
      (s.rules[i].mode == CloneOrMissing ==>
         cells[i].content.Some? && value == Value(cells[i].content.value))
  {
    forall i | 0 <= i < |cells|
      ensures var value := Assemble(s, cells).value[i];
        (cells[i].List? ==> value == Values(cells[i].items)) &&
        (cells[i].Slot? && s.rules[i].mode == CloneAsIs ==> value == MaybeValue(cells[i].content)) &&
        (s.rules[i].mode == CloneOrMissing ==>
           cells[i].content.Some? && value == Value(cells[i].content.value))
    {
      AssembledFieldsFrom(s, cells, 0, i);
    }
  }

  /** One step of the assembly: field `k` is read, then the rest. */
  lemma AssembleStep<V>(s: BuilderSchema, cells: seq<Cell<V>>, k: nat)
    requires CellsFit(s, cells) && k < |cells|
    ensures var t := TakeField(s.rules[k], cells[k]);
      AssembleFrom(s, cells, k) ==
        if t.Failure? then Failure(t.error) else Prefixed([t.value], AssembleFrom(s, cells, k + 1))
  {
  }

  /** Fail-fast: once field `j` is missing, nothing after it is looked at, so two
      builders that agree up to `j` build the same result. */
  lemma {:induction false} StopsAtFirstMissingFrom<V>(s: BuilderSchema, c1: seq<Cell<V>>, c2: seq<Cell<V>>, k: nat, j: nat)
    requires CellsFit(s, c1) && CellsFit(s, c2) && k <= j < |c1|
    requires forall i :: 0 <= i <= j ==> c1[i] == c2[i]
    requires Missing(s, c1, j)
    ensures AssembleFrom(s, c1, k) == AssembleFrom(s, c2, k)
    decreases j - k
  {
    assert c1[k] == c2[k];
    AssembleStep(s, c1, k);
    AssembleStep(s, c2, k);
    if k < j {
      StopsAtFirstMissingFrom(s, c1, c2, k + 1, j);
    }
  }

  lemma StopsAtFirstMissing<V>(s: BuilderSchema, c1: seq<Cell<V>>, c2: seq<Cell<V>>, j: nat)
    requires CellsFit(s, c1) && CellsFit(s, c2) && j < |c1|
    requires forall i :: 0 <= i <= j ==> c1[i] == c2[i]
    requires Missing(s, c1, j)
    ensures Assemble(s, c1).Failure? && Assemble(s, c1) == Assemble(s, c2)
  {
    StopsAtFirstMissingFrom(s, c1, c2, 0, j);
  }

  /** The error names the first required field, in declaration order, whose slot is
      empty. */
  lemma {:induction false} FirstMissingReportedFrom<V>(s: BuilderSchema, cells: seq<Cell<V>>, k: nat, j: nat)
    requires CellsFit(s, cells) && k <= j < |cells| && Missing(s, cells, j)
    requires forall i :: k <= i < j ==> !Missing(s, cells, i)
    ensures AssembleFrom(s, cells, k) == Failure(MissingField(s.rules[j].field))
    decreases j - k
  {
    AssembleStep(s, cells, k);
    if k < j {
      assert !Missing(s, cells, k);
      assert TakeField(s.rules[k], cells[k]).Success?;
      FirstMissingReportedFrom(s, cells, k + 1, j);
    } else {
      assert TakeField(s.rules[k], cells[k]) == Failure(MissingField(s.rules[j].field));
    }
  }

  lemma FirstMissingReported<V>(s: BuilderSchema, cells: seq<Cell<V>>, j: nat)
    requires CellsFit(s, cells) && j < |cells| && Missing(s, cells, j)
    requires forall i :: 0 <= i < j ==> !Missing(s, cells, i)
    ensures Assemble(s, cells) == Failure(MissingField(s.rules[j].field))
  {
    FirstMissingReportedFrom(s, cells, 0, j);
  }

  /** `n` accessor calls with `v1..vn` append exactly `[v1, ..., vn]`, in call order. */
  lemma {:induction false} PushedAllAppends<V>(c: Cell<V>, vs: seq<V>)
    requires c.List?
    ensures PushedAll(c, vs) == List(c.items + vs)
    decreases |vs|
  {
    if vs != [] {
      PushedAllAppends(Pushed(c, vs[0]), vs[1..]);
      assert (c.items + [vs[0]]) + vs[1..] == c.items + vs;
    }
  }

  /** From a fresh builder, the list holds exactly the accessor arguments. */
  lemma PushedAllFromEmpty<V>(vs: seq<V>)
    ensures PushedAll(List([]), vs) == List(vs)
  {
    PushedAllAppends(List([]), vs);
    assert [] + vs == vs;
  }
}
