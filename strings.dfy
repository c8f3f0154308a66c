/**
 * Whitespace, trimming and blankness for the two runtimes of the system.
 * JavaScript's `String.prototype.trim` and regular-expression `\s` use one set of
 * white-space code points; Kotlin's `Char.isWhitespace` (used by `trim`, `isBlank`)
 * uses a slightly different one.
 */
module Strings {
  import opened Wrappers

  datatype Platform = Js | Kotlin

  /** White space and line terminators as each runtime defines them. */
  predicate IsSpace(p: Platform, c: char) {
    var n := c as int;
    // common to both: tab, line feed, vertical tab, form feed, carriage return,
    // the Unicode space separators and the line/paragraph separators
    || n == 0x09 || n == 0x0A || n == 0x0B || n == 0x0C || n == 0x0D
    || n == 0x20 || n == 0xA0 || n == 0x1680 || (0x2000 <= n <= 0x200A)
    || n == 0x2028 || n == 0x2029 || n == 0x202F || n == 0x205F || n == 0x3000
    // JavaScript also strips the byte-order mark; Kotlin also counts the
    // information separators U+001C..U+001F
    || (p == Js && n == 0xFEFF)
    || (p == Kotlin && 0x1C <= n <= 0x1F)
  }

  /** `s.isBlank()` in Kotlin, `s.trim().length === 0` in JavaScript. */
  predicate IsBlank(p: Platform, s: string) {
    forall i :: 0 <= i < |s| ==> IsSpace(p, s[i])
  }

  predicate HasSpace(p: Platform, s: string) {
    exists i :: 0 <= i < |s| && IsSpace(p, s[i])
  }

  /** Drops leading white space: the result is the suffix of `s` that starts at its first non-space. */
  function TrimStart(p: Platform, s: string): (r: string)
    ensures |r| <= |s| && r == s[|s| - |r|..]
    ensures r == [] || !IsSpace(p, r[0])
    ensures forall i :: 0 <= i < |s| - |r| ==> IsSpace(p, s[i])
  {
    if s != [] && IsSpace(p, s[0]) then TrimStart(p, s[1..]) else s
  }

  /** Drops trailing white space: the result is the prefix of `s` that ends at its last non-space. */
  function TrimEnd(p: Platform, s: string): (r: string)
    ensures |r| <= |s| && r == s[..|r|]
    ensures r == [] || !IsSpace(p, r[|r| - 1])
    ensures forall i :: |r| <= i < |s| ==> IsSpace(p, s[i])
  {
    if s != [] && IsSpace(p, s[|s| - 1]) then TrimEnd(p, s[..|s| - 1]) else s
  }

  /** A text that does not begin with white space is its own `TrimStart`. */
  lemma TrimStartOfNonSpace(p: Platform, s: string)
    requires s != [] && !IsSpace(p, s[0])
    ensures TrimStart(p, s) == s
  {
  }

  /** The number of white-space characters `TrimStart` removes. */
  function LeadingSpaces(p: Platform, s: string): (k: nat)
    ensures k <= |s|
  {
    |s| - |TrimStart(p, s)|
  }

  /**
   * Both ends trimmed: a slice of `s` starting after its leading white space,
   * with nothing but white space cut off either side; empty exactly when `s` is blank.
   */
  function Trim(p: Platform, s: string): (r: string)
    ensures r == [] || (!IsSpace(p, r[0]) && !IsSpace(p, r[|r| - 1]))
    ensures LeadingSpaces(p, s) + |r| <= |s|
    ensures r == s[LeadingSpaces(p, s)..LeadingSpaces(p, s) + |r|]
    ensures forall i :: 0 <= i < |s| && !(LeadingSpaces(p, s) <= i < LeadingSpaces(p, s) + |r|) ==> IsSpace(p, s[i])
    ensures r == [] <==> IsBlank(p, s)
  {
    var t := TrimStart(p, s);
    TrimEnd(p, t)
  }

  /** A trimmed text is blank exactly when the text was. */
  lemma TrimmedBlank(p: Platform, s: string)
    ensures IsBlank(p, Trim(p, s)) <==> IsBlank(p, s)
  {
    var r := Trim(p, s);
    if r != [] {
      assert !IsSpace(p, r[0]);
    }
  }

  /** Kotlin's `s.ifBlank { fallback }`. */
  function IfBlank(s: string, fallback: string): (r: string)
    ensures IsBlank(Kotlin, s) ==> r == fallback
    ensures !IsBlank(Kotlin, s) ==> r == s
  {
    if IsBlank(Kotlin, s) then fallback else s
  }

  /** JavaScript truthiness of an optional string: present and non-empty. */
  predicate Truthy(v: Option<string>) {
    v.Some? && v.value != ""
  }

  /** The position of the first `c` in `s`. */
  function IndexOf(s: string, c: char): (i: nat)
    requires c in s
    ensures i < |s| && s[i] == c && c !in s[..i]
  {
    if s[0] == c then 0 else 1 + IndexOf(s[1..], c)
  }

  /**
   * `s.split(sep)` for a one-character separator: the pieces between the
   * separators, empty pieces included, so `n` separators give `n + 1` pieces.
   */
  function Split(s: string, sep: char): (parts: seq<string>)
    ensures |parts| == 1 + multiset(s)[sep]
    ensures forall i :: 0 <= i < |parts| ==> sep !in parts[i]
    ensures Join(parts, sep) == s
    decreases |s|
  {
    if sep !in s then
      assert multiset(s)[sep] == 0;
      [s]
    else
      var i := IndexOf(s, sep);
      var rest := Split(s[i + 1..], sep);
      assert s == s[..i] + [sep] + s[i + 1..];
      assert multiset(s)[sep] == 1 + multiset(s[i + 1..])[sep] by {
        assert multiset(s) == multiset(s[..i]) + multiset([sep]) + multiset(s[i + 1..]);
      }
      [s[..i]] + rest
  }

  /** The pieces glued back together with `sep` between neighbours (`Array.prototype.join`). */
  function Join(parts: seq<string>, sep: char): string
    requires parts != []
  {
    if |parts| == 1 then parts[0] else parts[0] + [sep] + Join(parts[1..], sep)
  }

  /** `parts.join(sep)` for a separator of any length. */
  function JoinWith(parts: seq<string>, sep: string): string {
    if parts == [] then [] else if |parts| == 1 then parts[0] else parts[0] + sep + JoinWith(parts[1..], sep)
  }

  /** A text that splits into two pieces is the first piece, the separator and the second. */
  lemma SplitInTwo(s: string, sep: char)
    requires |Split(s, sep)| == 2
    ensures var parts := Split(s, sep);
            s == parts[0] + [sep] + parts[1] && sep !in parts[1]
  {
    var parts := Split(s, sep);
    assert parts[1..] == [parts[1]];
  }

  /** Splitting undoes joining when no piece contains the separator. */
  lemma {:induction false} SplitJoin(parts: seq<string>, sep: char)
    requires parts != []
    requires forall i :: 0 <= i < |parts| ==> sep !in parts[i]
    ensures Split(Join(parts, sep), sep) == parts
    decreases |parts|
  {
    if |parts| == 1 {
    } else {
      var s := Join(parts, sep);
      var tail := Join(parts[1..], sep);
      assert s == parts[0] + [sep] + tail;
      assert s[|parts[0]|] == sep;
      assert s[..|parts[0]|] == parts[0];
      assert IndexOf(s, sep) == |parts[0]|;
      assert s[|parts[0]| + 1..] == tail;
      SplitJoin(parts[1..], sep);
    }
  }
}
