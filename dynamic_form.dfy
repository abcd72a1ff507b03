/**
 * The field-set manager (src/utils/DynamicForm.ts): an ordered collection of
 * form instances with a lower and an upper bound fixed at construction.
 * `nanoid(4)` is modelled as an injected SuffixSource that hands out the
 * tokens of a fixed stream one after the other.
 */
module DynamicForms {
  import opened FormTypes
  import opened ArraySplice

  /** The length of every token `nanoid(4)` produces. */
  const SuffixLength: nat := 4

  /** The random-suffix generator: the n-th call returns `tokens(n)`. */
  class SuffixSource {
    const tokens: nat -> string
    var drawn: nat

    constructor (tokens: nat -> string)
      ensures this.tokens == tokens && drawn == 0
    {
      this.tokens := tokens;
      drawn := 0;
    }

    method Next() returns (token: string)
      modifies this
      ensures token == tokens(old(drawn)) && drawn == old(drawn) + 1
    {
      token := tokens(drawn);
      drawn := drawn + 1;
    }
  }

  /** A template literal `${base}_${token}`. */
  function Suffixed(base: string, token: string): string
  {
    base + "_" + token
  }

  /** The instance-field copy of `field`, renamed `${base}_${fieldName}_${token}`. */
  function Renamed(field: FormField, base: string, token: string): FormField
  {
    field.(name := Suffixed(Suffixed(base, field.fieldName), token))
  }

  /** The descriptor part of a field: everything but its instance name. */
  function Descriptor(field: FormField): (string, string, string)
  {
    (field.fieldName, field.fieldType, field.fieldLabel)
  }

  /**
   * The instance `addField(template)` appends when the source's tokens start
   * at position `start`: sub-field k draws token `start + k` (the `map` runs
   * first), the id draws the token after the last sub-field's.
   */
  function Instantiate(template: FormData, tokens: nat -> string, start: nat): (d: FormData)
    ensures d.name == template.name
    ensures template.name + "_" <= d.id
    ensures |d.subFields| == |template.subFields|
    ensures forall k :: 0 <= k < |d.subFields| ==>
              Descriptor(d.subFields[k]) == Descriptor(template.subFields[k])
              && template.name + "_" + template.subFields[k].fieldName + "_" <= d.subFields[k].name
  {
    var n := |template.subFields|;
    FormData(
      Suffixed(template.name, tokens(start + n)),
      template.name,
      seq(n, k requires 0 <= k < n => Renamed(template.subFields[k], template.name, tokens(start + k))))
  }

  /** The k-th identifier an instance carries: its sub-fields' names, then its id. */
  function IdentifierAt(d: FormData, k: nat): string
    requires k <= |d.subFields|
  {
    if k < |d.subFields| then d.subFields[k].name else d.id
  }

  /** The part of the k-th identifier that precedes its `_token` suffix. */
  function IdentifierBase(template: FormData, k: nat): string
    requires k <= |template.subFields|
  {
    if k < |template.subFields| then Suffixed(template.name, template.subFields[k].fieldName)
    else template.name
  }

  /** The k-th identifier of an instance is its base followed by `_` and the k-th token drawn. */
  lemma IdentifierShape(template: FormData, tokens: nat -> string, start: nat, k: nat)
    requires k <= |template.subFields|
    ensures IdentifierAt(Instantiate(template, tokens, start), k)
         == Suffixed(IdentifierBase(template, k), tokens(start + k))
  {
  }

  /** A suffixed name ends with `_` and its token. */
  lemma EndsWithToken(base: string, token: string)
    ensures var s := Suffixed(base, token);
            |token| < |s| && s[|s| - |token|..] == token && s[|s| - |token| - 1] == '_'
  {
  }

  /** Two identifiers ending in distinct tokens of equal length are distinct, whatever their prefixes. */
  lemma {:induction false} DistinctTokensDistinctNames(b1: string, t1: string, b2: string, t2: string)
    requires |t1| == |t2| && t1 != t2
    ensures Suffixed(b1, t1) != Suffixed(b2, t2)
  {
    EndsWithToken(b1, t1);
    EndsWithToken(b2, t2);
  }

  /**
   * Identifiers generated from different token positions differ when their
   * tokens differ and both have the length of a `nanoid(4)` token.
   */
  lemma {:induction false} IdentifiersDistinct(
    t1: FormData, s1: nat, k1: nat, t2: FormData, s2: nat, k2: nat, tokens: nat -> string)
    requires k1 <= |t1.subFields| && k2 <= |t2.subFields|
    requires |tokens(s1 + k1)| == SuffixLength && |tokens(s2 + k2)| == SuffixLength
    requires tokens(s1 + k1) != tokens(s2 + k2)
    ensures IdentifierAt(Instantiate(t1, tokens, s1), k1) != IdentifierAt(Instantiate(t2, tokens, s2), k2)
  {
    IdentifierShape(t1, tokens, s1, k1);
    IdentifierShape(t2, tokens, s2, k2);
    DistinctTokensDistinctNames(IdentifierBase(t1, k1), tokens(s1 + k1), IdentifierBase(t2, k2), tokens(s2 + k2));
  }

  /** Two successive additions of one template get distinct ids when their id tokens differ. */
  lemma {:induction false} SuccessiveIdsDistinct(template: FormData, tokens: nat -> string, start: nat)
    requires var n := |template.subFields|; tokens(start + n) != tokens(start + n + 1 + n)
    ensures Instantiate(template, tokens, start).id
         != Instantiate(template, tokens, start + |template.subFields| + 1).id
  {
    var n := |template.subFields|;
    var a := Instantiate(template, tokens, start).id;
    var b := Instantiate(template, tokens, start + n + 1).id;
    assert a[|template.name| + 1..] == tokens(start + n);
    assert b[|template.name| + 1..] == tokens(start + n + 1 + n);
  }

  /** The bounded, ordered collection of form instances. */
  class DynamicForm {
    var fields: seq<FormData>
    const fieldMin: int
    const fieldMax: int

    /** `new DynamicForm(fields, fieldMin, fieldMax)`; the bounds are not checked against `fields`. */
    constructor (fields: seq<FormData>, fieldMin: int, fieldMax: int)
      ensures this.fields == fields && this.fieldMin == fieldMin && this.fieldMax == fieldMax
    {
      this.fields := fields;
      this.fieldMin := fieldMin;
      this.fieldMax := fieldMax;
    }

    /** `new DynamicForm()` with the default arguments `[]`, 1 and 1. */
    constructor Default()
      ensures fields == [] && fieldMin == 1 && fieldMax == 1
    {
      fields := [];
      fieldMin := 1;
      fieldMax := 1;
    }

    function FieldLength(): nat
      reads this
    {
      |fields|
    }

    /** The bounds the operations preserve (the constructor does not establish them). */
    predicate WithinBounds()
      reads this
    {
      fieldMin <= |fields| <= fieldMax
    }

    /** Appends a freshly named copy of `template`, unless the collection is full. */
    method AddField(template: FormData, source: SuffixSource)
      modifies this, source
      ensures old(FieldLength()) >= fieldMax ==>
                fields == old(fields) && source.drawn == old(source.drawn)
      ensures old(FieldLength()) < fieldMax ==>
                fields == old(fields) + [Instantiate(template, source.tokens, old(source.drawn))]
                && source.drawn == old(source.drawn) + |template.subFields| + 1
      ensures old(FieldLength()) <= fieldMax ==> FieldLength() <= fieldMax
      ensures old(WithinBounds()) ==> WithinBounds()
    {
      if FieldLength() >= fieldMax {
        return;
      }
      var baseName := template.name;
      var subFields: seq<FormField> := [];
      var k := 0;
      while k < |template.subFields|
        invariant 0 <= k <= |template.subFields|
        invariant source.drawn == old(source.drawn) + k
        invariant fields == old(fields)
        invariant |subFields| == k
        invariant forall j :: 0 <= j < k ==>
                    subFields[j] == Renamed(template.subFields[j], baseName, source.tokens(old(source.drawn) + j))
      {
        var token := source.Next();
        subFields := subFields + [Renamed(template.subFields[k], baseName, token)];
        k := k + 1;
      }
      var token := source.Next();
      var newField := FormData(Suffixed(baseName, token), baseName, subFields);
      assert newField == Instantiate(template, source.tokens, old(source.drawn));
      fields := fields + [newField];
    }

    /** `splice(index, 1)` on the collection, unless it is at or below the minimum. */
    method RemoveField(index: int)
      modifies this
      ensures fields == if old(FieldLength()) <= fieldMin then old(fields) else Splice1(old(fields), index)
      ensures old(FieldLength()) >= fieldMin ==> FieldLength() >= fieldMin
      ensures old(WithinBounds()) ==> WithinBounds()
    {
      if FieldLength() <= fieldMin {
        return;
      }
      fields := Splice1(fields, index);
    }

    /** Empties the collection, whatever `fieldMin` says. */
    method RemoveAllFields()
      modifies this
      ensures fields == []
      ensures WithinBounds() <==> fieldMin <= 0 <= fieldMax
    {
      fields := [];
    }
  }

  /** Unit-test scenario: with bounds [1, 3], five additions leave three instances. */
  method FiveAddsStopAtMax(template: FormData, tokens: nat -> string) returns (length: nat)
    ensures length == 3
  {
    var form := new DynamicForm([], 1, 3);
    var source := new SuffixSource(tokens);
    form.AddField(template, source);
    form.AddField(template, source);
    form.AddField(template, source);
    form.AddField(template, source);
    form.AddField(template, source);
    length := form.FieldLength();
  }

  /** Unit-test scenario: with bounds [0, 0] an addition is ignored. */
  method ZeroMaxAddsNothing(template: FormData, tokens: nat -> string) returns (length: nat)
    ensures length == 0
  {
    var form := new DynamicForm([], 0, 0);
    var source := new SuffixSource(tokens);
    form.AddField(template, source);
    length := form.FieldLength();
  }

  /** Unit-test scenario: with bounds [2, 2], three additions give two instances and a removal is ignored. */
  method EqualBounds(template: FormData, tokens: nat -> string) returns (afterAdds: nat, afterRemove: nat)
    ensures afterAdds == 2 && afterRemove == 2
  {
    var form := new DynamicForm([], 2, 2);
    var source := new SuffixSource(tokens);
    form.AddField(template, source);
    form.AddField(template, source);
    form.AddField(template, source);
    afterAdds := form.FieldLength();
    form.RemoveField(0);
    afterRemove := form.FieldLength();
  }

  /**
   * Unit-test scenario: after two additions and `removeField(0)`, the second instance is
   * first and the first instance's id is gone.
   */
  method RemoveFirstOfTwo(template: FormData, tokens: nat -> string)
    returns (firstId: string, secondId: string, ids: seq<string>)
    requires var n := |template.subFields|; tokens(n) != tokens(n + 1 + n)
    ensures firstId != secondId
    ensures ids == [secondId]
  {
    var form := new DynamicForm([], 1, 3);
    var source := new SuffixSource(tokens);
    form.AddField(template, source);
    form.AddField(template, source);
    firstId, secondId := form.fields[0].id, form.fields[1].id;
    SuccessiveIdsDistinct(template, tokens, 0);
    form.RemoveField(0);
    ids := seq(|form.fields|, i requires 0 <= i < |form.fields| reads form => form.fields[i].id);
  }

  /** Unit-test scenario: `removeAllFields` empties the collection and a second call keeps it empty; the bounds stay. */
  method ClearTwice(template: FormData, tokens: nat -> string) returns (length: nat, min: int, max: int)
    ensures length == 0 && min == 1 && max == 3
  {
    var form := new DynamicForm([], 1, 3);
    var source := new SuffixSource(tokens);
    form.AddField(template, source);
    form.AddField(template, source);
    form.RemoveAllFields();
    form.RemoveAllFields();
    length, min, max := form.FieldLength(), form.fieldMin, form.fieldMax;
  }
}
