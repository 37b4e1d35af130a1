/**
 * Store identifiers. A BSON ObjectId built from a string accepts exactly 24
 * hexadecimal digits in either case; its string form is those digits in lower
 * case. The model represents an ObjectId by that canonical string, so
 * `str(oid)` is the identity and `ObjectId(s)` is `ToObjectId(s)`.
 */
module Ids {
  import opened Options

  predicate IsHexDigit(c: char) {
    '0' <= c <= '9' || 'a' <= c <= 'f' || 'A' <= c <= 'F'
  }

  predicate IsLowerHexDigit(c: char) {
    '0' <= c <= '9' || 'a' <= c <= 'f'
  }

  /** What `ObjectId(s)` accepts without raising `InvalidId`. */
  predicate IsValidId(s: string) {
    |s| == 24 && forall i :: 0 <= i < |s| ==> IsHexDigit(s[i])
  }

  /** The string form of an ObjectId: 24 lower-case hexadecimal digits. */
  predicate IsCanonicalId(s: string) {
    |s| == 24 && forall i :: 0 <= i < |s| ==> IsLowerHexDigit(s[i])
  }

  type ObjectId = s: string | IsCanonicalId(s) witness "000000000000000000000000"

  /** Lower-cases one hexadecimal digit; other characters are left alone. */
  function LowerHex(c: char): (d: char)
    ensures IsHexDigit(c) ==> IsLowerHexDigit(d)
    ensures IsLowerHexDigit(c) ==> d == c
  {
    if 'A' <= c <= 'F' then (c as int - 'A' as int + 'a' as int) as char else c
  }

  /** Two hexadecimal digits denote the same nibble. */
  predicate SameDigit(c: char, d: char) {
    LowerHex(c) == LowerHex(d)
  }

  /** Two id strings denote the same 12 bytes. */
  predicate SameId(s: string, t: string) {
    |s| == |t| && forall i :: 0 <= i < |s| ==> SameDigit(s[i], t[i])
  }

  /**
   * `to_object_id` (main.py:94-98): the ObjectId the string denotes, or None
   * where the source answers 400 "Invalid id".
   */
  function ToObjectId(s: string): (r: Option<ObjectId>)
    ensures r.Some? <==> IsValidId(s)
    ensures r.Some? ==> SameId(s, r.value)
  {
    if IsValidId(s) then
      var t := seq(|s|, i requires 0 <= i < |s| => LowerHex(s[i]));
      assert forall i :: 0 <= i < |t| ==> LowerHex(t[i]) == t[i];
      Some(t)
    else
      None
  }

  /** Parsing the string form of an id gives the id back. */
  lemma ToObjectIdOfCanonical(id: ObjectId)
    ensures ToObjectId(id) == Some(id)
  {
    assert IsValidId(id);
    var r := ToObjectId(id);
    assert |r.value| == |id|;
    forall i | 0 <= i < |id|
      ensures r.value[i] == id[i]
    {
      assert SameDigit(id[i], r.value[i]);
    }
    assert r.value == id;
  }

  /** Two valid strings name the same document exactly when they agree up to the case of their digits. */
  lemma ToObjectIdIgnoresCase(s: string, t: string)
    requires IsValidId(s) && IsValidId(t)
    ensures ToObjectId(s) == ToObjectId(t) <==> SameId(s, t)
  {
    var a, b := ToObjectId(s).value, ToObjectId(t).value;
    if SameId(s, t) {
      forall i | 0 <= i < 24
        ensures a[i] == b[i]
      {
        assert SameDigit(s[i], a[i]) && SameDigit(t[i], b[i]);
      }
      assert a == b;
    } else {
      var i :| 0 <= i < 24 && !SameDigit(s[i], t[i]);
      assert SameDigit(s[i], a[i]) && SameDigit(t[i], b[i]);
      assert a[i] != b[i];
    }
  }
}
