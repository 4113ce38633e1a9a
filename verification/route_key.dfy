/** Parsing a "METHOD PATH" route key (src/index.ts:31-32) and lower-casing the
    method for registration (src/index.ts:71). The key is split at every space,
    the first piece is the method and the remaining pieces are joined back with
    single spaces; the lemmas show this is the same as cutting the key at its
    first space. */
module RouteKey {

  /** Index of the first occurrence of `c` in `s`. */
  function IndexOf(s: string, c: char): (i: nat)
    requires c in s
    ensures i < |s| && s[i] == c
    ensures c !in s[..i]
  {
    if s[0] == c then 0
    else
      assert s == [s[0]] + s[1..];
      var j := IndexOf(s[1..], c);
      assert s[..j + 1] == [s[0]] + s[1..][..j];
      j + 1
  }

  /** Joins `parts` with `sep` between consecutive pieces (JavaScript's
      Array.prototype.join with a one-character separator). */
  function Join(parts: seq<string>, sep: char): string
    decreases |parts|
  {
    if |parts| == 0 then ""
    else if |parts| == 1 then parts[0]
    else parts[0] + [sep] + Join(parts[1..], sep)
  }

  /** Splits `s` at every occurrence of `sep` (JavaScript's
      String.prototype.split with a one-character separator): never empty,
      no piece contains the separator, and joining the pieces gives `s` back. */
  function Split(s: string, sep: char): (parts: seq<string>)
    ensures |parts| >= 1
    ensures forall i :: 0 <= i < |parts| ==> sep !in parts[i]
    ensures Join(parts, sep) == s
    decreases |s|
  {
    if sep !in s then [s]
    else
      var i := IndexOf(s, sep);
      var rest := Split(s[i + 1..], sep);
      var parts := [s[..i]] + rest;
      assert parts[1..] == rest;
      assert s == s[..i] + [sep] + s[i + 1..];
      parts
  }

  /** The first occurrence of the separator in a join is the end of its first piece. */
  lemma {:induction false} IndexOfJoin(a: string, sep: char, b: string)
    requires sep !in a
    ensures sep in a + [sep] + b
    ensures IndexOf(a + [sep] + b, sep) == |a|
    decreases |a|
  {
    var s := a + [sep] + b;
    assert s[|a|] == sep;
    if |a| > 0 {
      assert s[0] == a[0] && s[0] != sep;
      assert s[1..] == a[1..] + [sep] + b;
      IndexOfJoin(a[1..], sep, b);
    }
  }

  /** Splitting undoes joining, for pieces free of the separator. */
  lemma {:induction false} SplitJoin(parts: seq<string>, sep: char)
    requires |parts| >= 1
    requires forall i :: 0 <= i < |parts| ==> sep !in parts[i]
    ensures Split(Join(parts, sep), sep) == parts
    decreases |parts|
  {
    if |parts| > 1 {
      var rest := parts[1..];
      assert forall i :: 0 <= i < |rest| ==> rest[i] == parts[i + 1];
      var tail := Join(rest, sep);
      var s := parts[0] + [sep] + tail;
      assert Join(parts, sep) == s;
      IndexOfJoin(parts[0], sep, tail);
      var i := |parts[0]|;
      assert s[..i] == parts[0];
      assert s[i + 1..] == tail;
      SplitJoin(rest, sep);
      assert Split(s, sep) == [parts[0]] + rest;
      assert parts == [parts[0]] + rest;
    }
  }

  /** A route key taken apart: the method token and the path template. */
  datatype ParsedKey = ParsedKey(verb: string, path: string)

  /** The key split at every space: the first piece is the method and the
      remaining pieces, joined back with single spaces, are the path. The method is free of spaces and, when the key has a space, method, one
      space and path spell the key; otherwise the method is the whole key and
      the path is empty. */
  function ParseKey(key: string): (k: ParsedKey)
    ensures ' ' !in k.verb
    ensures ' ' in key ==> k.verb + " " + k.path == key
    ensures ' ' !in key ==> k.verb == key && k.path == ""
  {
    var parts := Split(key, ' ');
    if ' ' in key then
      var i := IndexOf(key, ' ');
      assert parts[1..] == Split(key[i + 1..], ' ');
      assert key == key[..i] + " " + key[i + 1..];
      ParsedKey(parts[0], Join(parts[1..], ' '))
    else
      ParsedKey(parts[0], Join(parts[1..], ' '))
  }

  /** Parsing cuts the key at its first space: the method is exactly the text
      before it and the path is exactly the text after it, spaces included. */
  lemma ParseKeyFirstSpace(key: string)
    requires ' ' in key
    ensures ParseKey(key).verb == key[..IndexOf(key, ' ')]
    ensures ParseKey(key).path == key[IndexOf(key, ' ') + 1..]
  {
    var k := ParseKey(key);
    assert key == k.verb + [' '] + k.path;
    IndexOfJoin(k.verb, ' ', k.path);
    assert key[..|k.verb|] == k.verb;
    assert key[|k.verb| + 1..] == k.path;
  }

  /** Parsing is the inverse of writing a method, one space and a path: any
      space-free method and any path, even one holding spaces, come back out. */
  lemma ParseKeyOfFormat(verb: string, path: string)
    requires ' ' !in verb
    ensures ParseKey(verb + " " + path) == ParsedKey(verb, path)
  {
    var key := verb + " " + path;
    assert key[|verb|] == ' ';
    IndexOfJoin(verb, ' ', path);
    ParseKeyFirstSpace(key);
    assert key[..|verb|] == verb;
    assert key[|verb| + 1..] == path;
  }

  function LowerChar(c: char): char {
    if 'A' <= c <= 'Z' then (c as int + 32) as char else c
  }

  predicate IsUpper(c: char) {
    'A' <= c <= 'Z'
  }

  /** ASCII lower-casing (JavaScript's `toLowerCase` on the method): same length, every
      upper-case letter replaced by its lower-case partner, every other
      character kept. */
  function ToLower(s: string): (r: string)
    ensures |r| == |s|
    ensures forall i :: 0 <= i < |s| && IsUpper(s[i]) ==> r[i] == (s[i] as int + 32) as char
    ensures forall i :: 0 <= i < |s| && !IsUpper(s[i]) ==> r[i] == s[i]
  {
    if |s| == 0 then ""
    else [LowerChar(s[0])] + ToLower(s[1..])
  }

  /** Lower-casing leaves no upper-case letter behind, and a string is its own
      lower-case form exactly when it has none. */
  lemma ToLowerNormalForm(s: string)
    ensures forall i :: 0 <= i < |s| ==> !IsUpper(ToLower(s)[i])
    ensures ToLower(s) == s <==> forall i :: 0 <= i < |s| ==> !IsUpper(s[i])
  {
    var r := ToLower(s);
    if r == s {
      forall i | 0 <= i < |s|
        ensures !IsUpper(s[i])
      {
        assert r[i] == s[i];
      }
    }
  }

  /** Lower-casing twice is lower-casing once. */
  lemma ToLowerIdempotent(s: string)
    ensures ToLower(ToLower(s)) == ToLower(s)
  {
    ToLowerNormalForm(s);
    ToLowerNormalForm(ToLower(s));
  }

  /** Lower-casing keeps spaces where they are and introduces none, so a
      space-free method stays space-free. */
  lemma ToLowerKeepsSpaces(s: string)
    ensures ' ' in s <==> ' ' in ToLower(s)
  {
    var r := ToLower(s);
    if ' ' in r {
      var i :| 0 <= i < |r| && r[i] == ' ';
      assert s[i] == ' ';
    }
  }
}
