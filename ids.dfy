/** Entity identities and their textual forms.

    An entityx `Entity::Id` is a 32-bit index and a 32-bit version; two ids
    are equal exactly when both parts are.  The bridge prints them as
    `<Entity i.v>` (a script base object), `<Entity::Id i.v>` (a raw id) and
    `<module.Class i.v>` (a script class instance), all in unsigned decimal.
    Each form comes with a parser, so that the printed text is shown to
    determine the id. */
module Ids {
  import opened Options
  import opened Strings

  const ID_LIMIT: nat := 0x1_0000_0000

  type U32 = n: nat | n < 0x1_0000_0000

  datatype EntityId = EntityId(index: U32, version: U32)

  predicate IsDigit(c: char) { '0' <= c <= '9' }

  predicate AllDigits(s: string) { forall i | 0 <= i < |s| :: IsDigit(s[i]) }

  function DigitChar(d: nat): (c: char)
    requires d < 10
    ensures IsDigit(c) && (d > 0 ==> c != '0')
  {
    (d + '0' as int) as char
  }

  function DigitValue(c: char): (d: nat)
    requires IsDigit(c)
    ensures d < 10
  {
    c as int - '0' as int
  }

  /** Unsigned decimal text of `n`, without leading zeros (`operator<<` and `%d`). */
  function Decimal(n: nat): (s: string)
    ensures s != [] && AllDigits(s)
    ensures |s| > 1 || n > 0 ==> s[0] != '0'
    decreases n
  {
    if n < 10 then [DigitChar(n)] else Decimal(n / 10) + [DigitChar(n % 10)]
  }

  /** The value of a string of decimal digits. */
  function DigitsValue(s: string): nat
    requires AllDigits(s)
    decreases |s|
  {
    if s == [] then 0 else 10 * DigitsValue(s[..|s| - 1]) + DigitValue(s[|s| - 1])
  }

  lemma {:induction false} DigitsValueOfDecimal(n: nat)
    ensures DigitsValue(Decimal(n)) == n
    decreases n
  {
    if n >= 10 {
      DigitsValueOfDecimal(n / 10);
      var s := Decimal(n);
      assert s[..|s| - 1] == Decimal(n / 10);
    }
  }

  /** `index.version`, the body shared by every printed form of an id. */
  function IdText(id: EntityId): string {
    Decimal(id.index) + "." + Decimal(id.version)
  }

  /** Reads `index.version` back; None for anything that is not two 32-bit
      decimal numbers separated by the first dot. */
  function ParseIdText(s: string): Option<EntityId> {
    match Find(s, '.')
    case None => None
    case Some(i) =>
      var a, b := s[..i], s[i + 1..];
      if a != [] && b != [] && AllDigits(a) && AllDigits(b)
         && DigitsValue(a) < ID_LIMIT && DigitsValue(b) < ID_LIMIT
      then Some(EntityId(DigitsValue(a), DigitsValue(b)))
      else None
  }

  lemma IdTextRoundTrip(id: EntityId)
    ensures ParseIdText(IdText(id)) == Some(id)
  {
    var a, b := Decimal(id.index), Decimal(id.version);
    assert AbsentBefore(a, '.', |a|) by { assert !IsDigit('.'); }
    FindAfterPrefix(a, '.', b);
    var s := IdText(id);
    assert s[..|a|] == a && s[|a| + 1..] == b;
    DigitsValueOfDecimal(id.index);
    DigitsValueOfDecimal(id.version);
  }

  /** `prefix` + `index.version` + `>`. */
  function Tagged(prefix: string, id: EntityId): string {
    prefix + IdText(id) + ">"
  }

  function ParseTagged(prefix: string, s: string): Option<EntityId> {
    if |s| > |prefix| && s[..|prefix|] == prefix && s[|s| - 1] == '>'
    then ParseIdText(s[|prefix|..|s| - 1])
    else None
  }

  lemma TaggedRoundTrip(prefix: string, id: EntityId)
    ensures ParseTagged(prefix, Tagged(prefix, id)) == Some(id)
  {
    var s := Tagged(prefix, id);
    assert s[..|prefix|] == prefix;
    assert s[|prefix|..|s| - 1] == IdText(id);
    IdTextRoundTrip(id);
  }

  /** Printed texts with one prefix determine the id. */
  lemma TaggedInjective(prefix: string, a: EntityId, b: EntityId)
    requires Tagged(prefix, a) == Tagged(prefix, b)
    ensures a == b
  {
    TaggedRoundTrip(prefix, a);
    TaggedRoundTrip(prefix, b);
  }

  const ENTITY_PREFIX := "<Entity "
  const ENTITY_ID_PREFIX := "<Entity::Id "

  /** `repr` of the script base object: `<Entity i.v>`. */
  function PythonEntityRepr(id: EntityId): (s: string)
    ensures |s| > |ENTITY_PREFIX| && s[..|ENTITY_PREFIX|] == ENTITY_PREFIX && s[|s| - 1] == '>'
    ensures ParseTagged(ENTITY_PREFIX, s) == Some(id)
  {
    TaggedRoundTrip(ENTITY_PREFIX, id);
    Tagged(ENTITY_PREFIX, id)
  }

  /** `repr` of a raw id: `<Entity::Id i.v>`. */
  function EntityIdRepr(id: EntityId): (s: string)
    ensures |s| > |ENTITY_ID_PREFIX| && s[..|ENTITY_ID_PREFIX|] == ENTITY_ID_PREFIX && s[|s| - 1] == '>'
    ensures ParseTagged(ENTITY_ID_PREFIX, s) == Some(id)
  {
    TaggedRoundTrip(ENTITY_ID_PREFIX, id);
    Tagged(ENTITY_ID_PREFIX, id)
  }

  /** The two native forms never coincide: the eighth character is a space
      in one and a colon in the other. */
  lemma ReprFormsDiffer(a: EntityId, b: EntityId)
    ensures PythonEntityRepr(a) != EntityIdRepr(b)
  {
    assert PythonEntityRepr(a)[7] == ' ';
    assert EntityIdRepr(b)[7] == ':';
  }
}
