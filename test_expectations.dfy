/**
 * Expectations of internal/util/util_test.go that the coercion code as written does
 * not meet. They are stated here, apart from the model of internal/util/schema.go,
 * together with what that model yields instead.
 */
module TestExpectations {
  import opened Wrappers
  import opened Json
  import opened StrConv
  import opened Schema

  /** The test's schema for `array_of_integers`: an array whose items are integers. */
  function IntegerArray(): Schema
  {
    Schema("array", Some(Schema("integer", None, map[], map[])), map[], map[])
  }

  /**
   * The test expects `[1,2,3]` to coerce to the numbers 1, 2 and 3; the code decodes
   * the value into a list of strings first, and numbers are not strings.
   */
  lemma NumericArrayRejected(decode: string -> Option<Json>)
    requires decode("[1,2,3]") == Some(Array([Number(1.0), Number(2.0), Number(3.0)]))
    ensures Coerce("[1,2,3]", IntegerArray(), decode) == Err(NotAnArray("[1,2,3]"))
  {
    var j := Array([Number(1.0), Number(2.0), Number(3.0)]);
    assert !j.items[0].Str?;
    assert StringArray(j).None?;
  }

  /** A single digit is an integer literal worth that digit. */
  lemma AtoiDigit(c: char)
    requires IsDigit(c)
    ensures Atoi([c]) == Ok(DigitValue(c))
  {
    assert SplitSign([c]) == (false, [c]);
    assert [c][..0] == [];
    assert DecimalValue([c]) == DigitValue(c);
  }

  /** An array of quoted integers is what the code does accept for that schema. */
  lemma QuotedIntegersAccepted(decode: string -> Option<Json>)
    requires decode("[\"1\",\"2\"]") == Some(Array([Str("1"), Str("2")]))
    ensures Coerce("[\"1\",\"2\"]", IntegerArray(), decode) == Ok(VArray([VInt(1), VInt(2)]))
  {
    var j := Array([Str("1"), Str("2")]);
    var strs := StringArray(j).value;
    assert strs[0] == "1" && strs[1] == "2";
    assert strs == ["1", "2"];
    AtoiDigit('1');
    AtoiDigit('2');
    var item := IntegerArray().items.value;
    assert Coerce("2", item, decode) == Ok(VInt(2));
    assert Coerce("1", item, decode) == Ok(VInt(1));
    CoerceItemsOk(strs, IntegerArray(), decode);
    var vs := CoerceItems(strs, IntegerArray(), decode).value;
    assert vs[0] == VInt(1) && vs[1] == VInt(2);
    assert vs == [VInt(1), VInt(2)];
  }

  /**
   * Without a schema the test expects `"1"` to become the number 1; the code
   * dereferences the missing schema instead.
   */
  method SchemaLessInput(decode: string -> Option<Json>) returns (r: Result<map<string, Value>, CoerceTypesError>)
    ensures r == Err(NilSchema)
    ensures r != Ok(map["foo" := VFloat(Finite(1.0))])
  {
    var inputs := map["foo" := "1"];
    assert "foo" in inputs;
    r := CoerceTypes(inputs, None, decode);
  }

  /** Without a schema and without inputs there is nothing to dereference, and nothing to coerce. */
  method SchemaLessEmpty(decode: string -> Option<Json>) returns (r: Result<map<string, Value>, CoerceTypesError>)
    ensures r == Ok(map[])
  {
    r := CoerceTypes(map[], None, decode);
  }
}
