/**
 * The parsed Swagger document as the parser sees it: the value a JSON or
 * YAML loader produces in Python. `JNull` is Python's `None`; a mapping is
 * an insertion-ordered sequence of key/value pairs, so iterating over
 * `items()` visits the pairs in sequence order.
 */
module JsonValues {
  import opened Wrappers

  datatype Json =
    | JNull
    | JBool(b: bool)
    | JNum(n: int)
    | JStr(s: string)
    | JArr(items: seq<Json>)
    | JObj(fields: seq<(string, Json)>)

  /** Python's truth value of a document value (`if value`, `value or default`). */
  predicate Truthy(v: Json) {
    match v
    case JNull => false
    case JBool(b) => b
    case JNum(n) => n != 0
    case JStr(s) => s != ""
    case JArr(items) => items != []
    case JObj(fields) => fields != []
  }

  /**
   * The value stored under `key` in a mapping, or `None` when the key is
   * absent (`key in d` and `d[key]`). The first pair with that key wins.
   */
  function Lookup(fields: seq<(string, Json)>, key: string): (r: Option<Json>)
  {
    if fields == [] then None
    else if fields[0].0 == key then Some(fields[0].1)
    else Lookup(fields[1..], key)
  }

  /** A lookup finds the first pair with the key, and finds nothing exactly when no pair has it. */
  lemma {:induction false} LookupFindsFirst(fields: seq<(string, Json)>, key: string)
    ensures Lookup(fields, key).None? <==> forall k :: 0 <= k < |fields| ==> fields[k].0 != key
    ensures Lookup(fields, key).Some? ==>
      exists k :: 0 <= k < |fields| && fields[k] == (key, Lookup(fields, key).value) &&
        forall j :: 0 <= j < k ==> fields[j].0 != key
  {
    if fields != [] && fields[0].0 != key {
      var rest := fields[1..];
      LookupFindsFirst(rest, key);
      if Lookup(rest, key).Some? {
        var k :| 0 <= k < |rest| && rest[k] == (key, Lookup(fields, key).value) &&
          forall j :: 0 <= j < k ==> rest[j].0 != key;
        assert fields[k + 1] == (key, Lookup(fields, key).value);
        forall j | 0 <= j < k + 1 ensures fields[j].0 != key {
          if j > 0 { assert fields[j] == rest[j - 1]; }
        }
      } else {
        forall k | 0 <= k < |fields| ensures fields[k].0 != key {
          if k > 0 { assert fields[k] == rest[k - 1]; }
        }
      }
    }
  }

  /** `d.get(key, default)`: the stored value, or `default` when the key is absent. */
  function Get(fields: seq<(string, Json)>, key: string, default: Json): (r: Json)
    ensures Lookup(fields, key).Some? ==> r == Lookup(fields, key).value
    ensures Lookup(fields, key).None? ==> r == default
  {
    match Lookup(fields, key)
    case Some(v) => v
    case None => default
  }

  /**
   * Python's `str.lower()` on one character, as far as it can make a string
   * equal to a lower-case ASCII string: the letters A-Z and the KELVIN SIGN
   * (U+212A), whose lower case is `k`. Every other character whose lower case
   * differs is left as it is, which keeps it outside ASCII.
   */
  function LowerChar(c: char): (r: char)
    ensures ('a' <= r <= 'z') <==> ('a' <= c <= 'z' || 'A' <= c <= 'Z' || c == '\U{212A}')
    ensures !('A' <= c <= 'Z' || c == '\U{212A}') ==> r == c
    ensures 'A' <= c <= 'Z' ==> r as int - 'a' as int == c as int - 'A' as int
    ensures c == '\U{212A}' ==> r == 'k'
  {
    if 'A' <= c <= 'Z' then (c as int + 32) as char
    else if c == '\U{212A}' then 'k'
    else c
  }

  /** `s.lower()`, character by character. */
  function Lower(s: string): (r: string)
    ensures |r| == |s|
  {
    seq(|s|, i requires 0 <= i < |s| => LowerChar(s[i]))
  }

  /** `t` is lower-case ASCII: no character outside ASCII and no letter A-Z. */
  predicate LowerAscii(t: string) {
    forall i :: 0 <= i < |t| ==> t[i] as int < 128 && !('A' <= t[i] <= 'Z')
  }

  /** `c` is one of the characters that lower-case to the ASCII character `d`. */
  predicate CaseVariant(c: char, d: char) {
    || c == d
    || ('a' <= d <= 'z' && c as int == d as int - 32)
    || (d == 'k' && c == '\U{212A}')
  }

  /** One character lower-cases to a lower-case ASCII character `d` exactly when it is a case variant of `d`. */
  lemma LowerCharIs(c: char, d: char)
    requires d as int < 128 && !('A' <= d <= 'Z')
    ensures LowerChar(c) == d <==> CaseVariant(c, d)
  {
  }

  /**
   * Case-insensitive matching against a lower-case ASCII string: `s.lower() == t`
   * holds exactly when `s` has the length of `t` and each character of `s` is
   * the character of `t`, its upper-case letter or, for `k`, the KELVIN SIGN.
   */
  lemma {:induction false} LowerMatches(s: string, t: string)
    requires LowerAscii(t)
    ensures Lower(s) == t <==> |s| == |t| && forall i :: 0 <= i < |s| ==> CaseVariant(s[i], t[i])
  {
    forall i | 0 <= i < |s| && i < |t| {
      LowerCharIs(s[i], t[i]);
    }
  }
}
