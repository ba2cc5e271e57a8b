/**
 * The few PHP and WordPress primitives whose exact behaviour the plugin's
 * logic depends on: optional stored values, `empty()` on strings, reading a
 * posted form value, and the form-input name derived from a field label.
 */
module Php {

  /** A stored option or request value that may be absent. */
  datatype Option<+T> = None | Some(value: T) {
    /** `get_option($name, $default)`: the stored value, or the caller's default. */
    function GetOr(default: T): T {
      match this
      case Some(v) => v
      case None => default
    }
  }

  /** PHP's `empty()` (and falsiness, as used by `?:`) on a string: true for "" and for "0". */
  predicate Empty(s: string) {
    s == "" || s == "0"
  }

  /** `isset($_POST[$name]) ? $_POST[$name] : ''`. */
  function PostValue(post: map<string, string>, name: string): (v: string)
    ensures name in post ==> v == post[name]
    ensures name !in post ==> v == ""
  {
    if name in post then post[name] else ""
  }

  /** `strtolower` on one character (ASCII letters only). */
  function LowerChar(c: char): (d: char)
    ensures 'A' <= c <= 'Z' ==> 'a' <= d <= 'z'
    ensures !('A' <= c <= 'Z') ==> d == c
  {
    if 'A' <= c <= 'Z' then (c as int + 32) as char else c
  }

  /** The characters `sanitize_key` keeps. */
  predicate IsKeyChar(c: char) {
    'a' <= c <= 'z' || '0' <= c <= '9' || c == '_' || c == '-'
  }

  predicate IsKey(s: string) {
    forall i :: 0 <= i < |s| ==> IsKeyChar(s[i])
  }

  /**
   * The name of a field's form input:
   * `sanitize_key(str_replace(' ', '_', strtolower($caption)))`.
   * Spaces become underscores, letters are lower-cased, and every other
   * character outside [a-z0-9_-] is dropped.
   */
  function FieldKey(caption: string): (key: string)
    ensures |key| <= |caption|
    ensures IsKey(key)
  {
    if caption == [] then []
    else
      var c := if caption[0] == ' ' then '_' else LowerChar(caption[0]);
      (if IsKeyChar(c) then [c] else []) + FieldKey(caption[1..])
  }

  /** A string already made of key characters is its own key. */
  lemma {:induction false} KeyIsFixedPoint(s: string)
    requires IsKey(s)
    ensures FieldKey(s) == s
  {
    if s != [] {
      assert IsKeyChar(s[0]);
      assert IsKey(s[1..]) by {
        forall i | 0 <= i < |s[1..]| ensures IsKeyChar(s[1..][i]) {
          assert s[1..][i] == s[i + 1];
        }
      }
      KeyIsFixedPoint(s[1..]);
    }
  }

  /** Deriving the input name twice changes nothing: the name of a name is itself. */
  lemma FieldKeyIdempotent(caption: string)
    ensures FieldKey(FieldKey(caption)) == FieldKey(caption)
  {
    KeyIsFixedPoint(FieldKey(caption));
  }

  /** The input name of a concatenation is the concatenation of the input names. */
  lemma {:induction false} FieldKeyConcat(a: string, b: string)
    ensures FieldKey(a + b) == FieldKey(a) + FieldKey(b)
  {
    if a != [] {
      assert (a + b)[0] == a[0];
      assert (a + b)[1..] == a[1..] + b;
      FieldKeyConcat(a[1..], b);
    } else {
      assert a + b == b;
    }
  }

  /**
   * Two labels that differ only in the case of one letter, or in a space
   * against an underscore, share one input name (so "License Number" and
   * "license_number" read the same posted value).
   */
  lemma FieldKeyCollisions(a: string, b: string, c: char)
    requires 'A' <= c <= 'Z'
    ensures FieldKey(a + [c] + b) == FieldKey(a + [LowerChar(c)] + b)
    ensures FieldKey(a + " " + b) == FieldKey(a + "_" + b)
  {
    FieldKeyConcat(a + [c], b);
    FieldKeyConcat(a, [c]);
    FieldKeyConcat(a + [LowerChar(c)], b);
    FieldKeyConcat(a, [LowerChar(c)]);
    FieldKeyConcat(a + " ", b);
    FieldKeyConcat(a, " ");
    FieldKeyConcat(a + "_", b);
    FieldKeyConcat(a, "_");
  }
}
