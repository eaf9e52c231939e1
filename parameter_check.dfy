/**
 * The parameter checks at the start of `salvarDadosPessoais`: five required
 * properties, each of which must be a string of non-zero length, checked in a
 * fixed order; the first one that fails aborts the call with an
 * `invalid-argument` error.
 */
module ParameterCheck {
  import opened Request

  /** The five required properties, named after their keys. */
  datatype Field = Nome | Telefone | Email | Endereco1 | Curriculo

  /** The property key the handler reads for each field. */
  function Key(f: Field): string
  {
    match f
    case Nome => "nome"
    case Telefone => "telefone"
    case Email => "email"
    case Endereco1 => "endereco1"
    case Curriculo => "curriculo"
  }

  /** Position of each check in the handler (0 is checked first). */
  function Rank(f: Field): nat
  {
    match f
    case Nome => 0
    case Telefone => 1
    case Email => 2
    case Endereco1 => 3
    case Curriculo => 4
  }

  /** The fields in the order the handler checks them. */
  const CHECK_ORDER: seq<Field> := [Nome, Telefone, Email, Endereco1, Curriculo]

  /**
   * `typeof data[key] === "string" && data[key].length !== 0`. A missing key
   * reads as `undefined`, whose type is not "string".
   */
  predicate IsNonEmptyString(fields: map<string, Value>, key: string)
  {
    key in fields && fields[key].Str? && |fields[key].text| > 0
  }

  /** What the handler throws. */
  datatype Failure =
    | HttpsError(code: string, message: string)
    | TypeError  // reading a property of `null` or `undefined`

  const INVALID_ARGUMENT := "invalid-argument"

  const MESSAGE_HEAD := "A função deve ser chamada com um argumento '"

  /** The noun phrase each message uses for the missing value. */
  function Subject(f: Field): string
  {
    match f
    case Nome => "o nome"
    case Telefone => "o telefone"
    case Email => "o email"
    case Endereco1 => "o endereço principal"
    case Curriculo => "o currículo principal"
  }

  /** The message of the `invalid-argument` error thrown for field `f`. */
  function Message(f: Field): string
  {
    MESSAGE_HEAD + Key(f) + "' contendo " + Subject(f) + " do profissional a ser adcionado"
  }

  /**
   * The five guards, in the order the handler runs them; the result is the
   * field whose guard fails first, or None when every guard passes.
   */
  function FirstInvalidField(fields: map<string, Value>): (r: Option<Field>)
    ensures r.None? <==> forall f: Field :: IsNonEmptyString(fields, Key(f))
    ensures r.Some? ==> !IsNonEmptyString(fields, Key(r.value))
    ensures r.Some? ==> forall g: Field :: Rank(g) < Rank(r.value) ==> IsNonEmptyString(fields, Key(g))
  {
    if !IsNonEmptyString(fields, Key(Nome)) then Some(Nome)
    else if !IsNonEmptyString(fields, Key(Telefone)) then Some(Telefone)
    else if !IsNonEmptyString(fields, Key(Email)) then Some(Email)
    else if !IsNonEmptyString(fields, Key(Endereco1)) then Some(Endereco1)
    else if !IsNonEmptyString(fields, Key(Curriculo)) then Some(Curriculo)
    else None
  }

  /**
   * The whole check phase: None when the handler goes on to the insert,
   * otherwise the failure it throws.
   */
  function Guard(data: Data): (r: Option<Failure>)
    ensures data.Absent? ==> r == Some(TypeError)
    ensures r.None? <==> data.Object? && forall f: Field :: IsNonEmptyString(data.fields, Key(f))
    ensures data.Object? && r.Some? ==>
      exists f: Field ::
        && r.value == HttpsError(INVALID_ARGUMENT, Message(f))
        && !IsNonEmptyString(data.fields, Key(f))
        && forall g: Field :: Rank(g) < Rank(f) ==> IsNonEmptyString(data.fields, Key(g))
  {
    match data
    case Absent => Some(TypeError)
    case Object(fields) =>
      match FirstInvalidField(fields)
      case None => None
      case Some(f) => Some(HttpsError(INVALID_ARGUMENT, Message(f)))
  }

  /** The handler goes on to the insert. */
  predicate Accepts(data: Data)
  {
    Guard(data).None?
  }

  /**
   * Reference definition of "the first failing check": the index in `order`
   * of the first field that is not a non-empty string.
   */
  function FirstFailing(fields: map<string, Value>, order: seq<Field>): (r: Option<nat>)
    ensures r.None? <==> forall i :: 0 <= i < |order| ==> IsNonEmptyString(fields, Key(order[i]))
    ensures r.Some? ==> r.value < |order| && !IsNonEmptyString(fields, Key(order[r.value]))
    ensures r.Some? ==> forall j :: 0 <= j < r.value ==> IsNonEmptyString(fields, Key(order[j]))
  {
    if order == [] then None
    else if !IsNonEmptyString(fields, Key(order[0])) then Some(0)
    else
      match FirstFailing(fields, order[1..])
      case None => None
      case Some(k) => Some(k + 1)
  }

  /** CHECK_ORDER lists each field at its rank. */
  lemma CheckOrderRanks(f: Field)
    ensures Rank(f) < |CHECK_ORDER| && CHECK_ORDER[Rank(f)] == f
  {
  }

  /**
   * The chain of guards reports exactly the field the reference definition
   * picks over CHECK_ORDER.
   */
  lemma GuardsFollowCheckOrder(fields: map<string, Value>)
    ensures FirstInvalidField(fields) ==
      match FirstFailing(fields, CHECK_ORDER)
      case None => None
      case Some(k) => Some(CHECK_ORDER[k])
  {
    var r := FirstFailing(fields, CHECK_ORDER);
    forall f: Field ensures CHECK_ORDER[Rank(f)] == f {
      CheckOrderRanks(f);
    }
    if r.Some? {
      var f := CHECK_ORDER[r.value];
      assert Rank(f) == r.value;
      forall g: Field | Rank(g) < Rank(f)
        ensures IsNonEmptyString(fields, Key(g))
      {
        assert CHECK_ORDER[Rank(g)] == g;
      }
    } else {
      forall f: Field ensures IsNonEmptyString(fields, Key(f)) {
        assert CHECK_ORDER[Rank(f)] == f;
      }
    }
  }

  /**
   * A required property that is missing, is not a string, or is the empty
   * string is rejected the same way: the verdict does not depend on which of
   * the three it is.
   */
  lemma MissingNonStringAndEmptyAlike(fields: map<string, Value>, f: Field, v: Value)
    requires v.Other? || v == Str("")
    ensures Guard(Object(fields[Key(f) := v])) == Guard(Object(fields - {Key(f)}))
    ensures Guard(Object(fields[Key(f) := v])).Some?
  {
  }

  /**
   * Each field has its own message, so the error names the check that
   * failed.
   */
  lemma MessageIdentifiesField(f: Field, g: Field)
    requires Message(f) == Message(g)
    ensures f == g
  {
  }
}
