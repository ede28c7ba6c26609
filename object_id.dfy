/**
 * Plant references.  A stored plant reference is a document ObjectId; the
 * routes receive it as a string and the database driver casts that string to
 * an ObjectId, whose string form is always 24 lower-case hex digits.
 */
module ObjectIds {
  import opened Wrappers

  /** Number of hex digits in the string form of an ObjectId (12 bytes). */
  const HexLength := 24

  predicate IsHexDigit(c: char) {
    '0' <= c <= '9' || 'a' <= c <= 'f' || 'A' <= c <= 'F'
  }

  predicate IsLowerHexDigit(c: char) {
    '0' <= c <= '9' || 'a' <= c <= 'f'
  }

  /** The canonical string form of an ObjectId. */
  predicate IsCanonical(s: string) {
    |s| == HexLength && forall i :: 0 <= i < |s| ==> IsLowerHexDigit(s[i])
  }

  /** A string the driver can cast: 24 hex digits of either case. */
  predicate IsCastable(s: string) {
    |s| == HexLength && forall i :: 0 <= i < |s| ==> IsHexDigit(s[i])
  }

  function LowerHexDigit(c: char): (r: char)
    requires IsHexDigit(c)
    ensures IsLowerHexDigit(r)
    ensures r == c <==> IsLowerHexDigit(c)
  {
    if 'A' <= c <= 'F' then (c as int - 'A' as int + 'a' as int) as char else c
  }

  function LowerHex(s: string): (r: string)
    requires forall i :: 0 <= i < |s| ==> IsHexDigit(s[i])
    ensures |r| == |s|
    ensures forall i :: 0 <= i < |s| ==> r[i] == LowerHexDigit(s[i])
  {
    if s == [] then [] else [LowerHexDigit(s[0])] + LowerHex(s[1..])
  }

  /**
   * The driver's cast of a request string to an ObjectId, read back through
   * its string form: `Some` of the canonical form, or `None` for a CastError.
   */
  function Cast(s: string): (r: Option<string>)
    ensures r.Some? <==> IsCastable(s)
    ensures r.Some? ==> IsCanonical(r.value)
    ensures r.Some? ==> forall i :: 0 <= i < |s| ==> r.value[i] == LowerHexDigit(s[i])
  {
    if IsCastable(s) then Some(LowerHex(s)) else None
  }

  /**
   * `isValidObjectId`: the driver accepts the string AND the string is equal
   * to the string form of the ObjectId built from it.  This holds exactly of
   * the canonical strings: 24 lower-case hex digits.
   */
  function IsValidObjectId(id: string): (b: bool)
    ensures b <==> IsCanonical(id)
  {
    var c := Cast(id);
    assert c.Some? && c.value == id ==> IsCanonical(id);
    assert IsCanonical(id) ==> c.Some? && c.value == id by {
      if IsCanonical(id) {
        assert IsCastable(id);
        assert forall i :: 0 <= i < |id| ==> c.value[i] == id[i];
      }
    }
    c.Some? && c.value == id
  }

  /** Casting is idempotent: the canonical form casts to itself. */
  lemma CastCanonical(s: string)
    requires IsCastable(s)
    ensures Cast(Cast(s).value) == Cast(s)
  {
    var t := Cast(s).value;
    assert IsCastable(t);
    assert forall i :: 0 <= i < |t| ==> LowerHexDigit(t[i]) == t[i];
    assert Cast(t).value == t;
  }
}
