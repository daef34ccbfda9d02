/** The small part of JavaScript's built-in behaviour that the page's logic depends on:
    `null`-or-value fields, truthiness, `Array.prototype.toString`, `String.prototype.includes`,
    the string literals `JSON.stringify` writes, `Array.prototype.filter`, and the index a
    `forEach` callback writes last. */
module Js {

  /** A field that holds either `null` (None) or a value. */
  datatype Option<+T> = None | Some(value: T)

  /** Truthiness of a field that is `null` or a number: `null` and `0` are falsy. */
  predicate IndexTruthy(x: Option<nat>) {
    x.Some? && x.value != 0
  }

  /** Truthiness of a field that is `null` or a string: `null` and `''` are falsy. */
  predicate StringTruthy(x: Option<string>) {
    x.Some? && x.value != ""
  }

  // ---------------------------------------------------------------------------
  // Array.prototype.toString on an array of strings

  /** The elements joined with commas, which is what `toString` gives for an array of strings. */
  function Join(items: seq<string>): string
  {
    if |items| == 0 then ""
    else if |items| == 1 then items[0]
    else items[0] + "," + Join(items[1..])
  }

  /** With two or more elements, the joined text is strictly longer than any one element
      (it holds that element and at least one comma). */
  lemma {:induction false} JoinLongerThanEachItem(items: seq<string>, i: nat)
    requires 2 <= |items| && i < |items|
    ensures |items[i]| < |Join(items)|
  {
    if 0 < i && 2 < |items| {
      JoinLongerThanEachItem(items[1..], i - 1);
    }
  }

  /** Every element stands somewhere in the joined text as a contiguous block. */
  lemma {:induction false} JoinAround(items: seq<string>, i: nat) returns (pre: string, post: string)
    requires i < |items|
    ensures Join(items) == pre + items[i] + post
  {
    if |items| == 1 {
      pre, post := "", "";
    } else if i == 0 {
      pre, post := "", "," + Join(items[1..]);
    } else {
      var p, q := JoinAround(items[1..], i - 1);
      pre, post := items[0] + "," + p, q;
      calc {
        Join(items);
        items[0] + "," + Join(items[1..]);
        items[0] + "," + (p + items[i] + q);
        pre + items[i] + post;
      }
    }
  }

  // ---------------------------------------------------------------------------
  // String.prototype.includes

  /** `s.includes(q)`: q occurs in s as a contiguous block (the empty string occurs everywhere). */
  predicate Includes(s: string, q: string)
    decreases |s|
  {
    (|q| <= |s| && s[..|q|] == q) || (0 < |s| && Includes(s[1..], q))
  }

  /** Whatever stands in the middle of a text is included in it. */
  lemma {:induction false} IncludesMiddle(pre: string, q: string, post: string)
    ensures Includes(pre + q + post, q)
    decreases |pre|
  {
    if |pre| == 0 {
      assert (pre + q + post)[..|q|] == q;
    } else {
      assert (pre + q + post)[1..] == pre[1..] + q + post;
      IncludesMiddle(pre[1..], q, post);
    }
  }

  // ---------------------------------------------------------------------------
  // String literals as JSON.stringify writes them

  /** The characters that JSON.stringify copies into a string literal unchanged. */
  predicate JsonPlainChar(c: char) {
    c != '"' && c != '\\' && ' ' <= c
  }

  /** A string made only of such characters. */
  predicate JsonPlain(s: string) {
    forall k :: 0 <= k < |s| ==> JsonPlainChar(s[k])
  }

  /** One lower-case hexadecimal digit. */
  function HexDigit(d: nat): char
    requires d < 16
  {
    "0123456789abcdef"[d]
  }

  /** How JSON.stringify writes one character inside a string literal: the two-character escapes
      for quote, backslash, backspace, form feed, newline, carriage return and tab, a `\u00xx`
      escape for the other control characters, and every other character as itself. */
  function JsonEscapeChar(c: char): (r: string)
    ensures JsonPlainChar(c) <==> r == [c]
  {
    if c == '"' then "\\\""
    else if c == '\\' then "\\\\"
    else if c == '\U{8}' then "\\b"
    else if c == '\U{C}' then "\\f"
    else if c == '\n' then "\\n"
    else if c == '\r' then "\\r"
    else if c == '\t' then "\\t"
    else if c < ' ' then "\\u00" + [HexDigit(c as int / 16), HexDigit(c as int % 16)]
    else [c]
  }

  /** The body of a JSON string literal: every character escaped in turn. */
  function JsonEscape(s: string): (r: string)
    ensures JsonPlain(s) ==> r == s
  {
    if |s| == 0 then "" else JsonEscapeChar(s[0]) + JsonEscape(s[1..])
  }

  /** A complete JSON string literal. */
  function JsonString(s: string): string {
    "\"" + JsonEscape(s) + "\""
  }

  /** No character of s is a control character. */
  predicate NoControl(s: string) {
    forall k :: 0 <= k < |s| ==> ' ' <= s[k]
  }

  /** Texts without control characters concatenate to one without them. */
  lemma NoControlAppend(a: string, b: string)
    requires NoControl(a) && NoControl(b)
    ensures NoControl(a + b)
  {
  }

  /** Every escape `JSON.stringify` writes is made of printable characters. */
  lemma JsonEscapeCharNoControl(c: char)
    ensures NoControl(JsonEscapeChar(c))
  {
  }

  /** So a JSON string body never holds a control character, whatever the string held. */
  lemma {:induction false} JsonEscapeNoControl(s: string)
    ensures NoControl(JsonEscape(s))
  {
    if |s| != 0 {
      JsonEscapeCharNoControl(s[0]);
      JsonEscapeNoControl(s[1..]);
    }
  }

  /** A complete JSON string literal holds no control character either. */
  lemma JsonStringNoControl(s: string)
    ensures NoControl(JsonString(s))
  {
    JsonEscapeNoControl(s);
    NoControlAppend("\"", JsonEscape(s));
    NoControlAppend("\"" + JsonEscape(s), "\"");
  }

  /** Joining texts without control characters gives a text without them. */
  lemma {:induction false} JoinNoControl(items: seq<string>)
    requires forall i :: 0 <= i < |items| ==> NoControl(items[i])
    ensures NoControl(Join(items))
  {
    if 1 < |items| {
      JoinNoControl(items[1..]);
    }
  }

  /** A text without control characters includes no query that has one. */
  lemma {:induction false} IncludesNoControl(s: string, q: string)
    requires Includes(s, q) && NoControl(s)
    ensures NoControl(q)
    decreases |s|
  {
    if |q| <= |s| && s[..|q|] == q {
      assert forall k :: 0 <= k < |q| ==> q[k] == s[k];
    } else {
      IncludesNoControl(s[1..], q);
    }
  }

  // ---------------------------------------------------------------------------
  // Array.prototype.filter

  /** `s.filter(p)`: the elements that satisfy p, in their original order. */
  function Filter<T>(s: seq<T>, p: T -> bool): (r: seq<T>)
    ensures |r| <= |s|
    ensures forall x :: x in r ==> x in s && p(x)
  {
    if |s| == 0 then [] else (if p(s[0]) then [s[0]] else []) + Filter(s[1..], p)
  }

  /** Filtering a concatenation filters each part. */
  lemma {:induction false} FilterAppend<T>(s: seq<T>, t: seq<T>, p: T -> bool)
    ensures Filter(s + t, p) == Filter(s, p) + Filter(t, p)
  {
    if |s| == 0 {
      assert s + t == t;
    } else {
      assert (s + t)[1..] == s[1..] + t;
      FilterAppend(s[1..], t, p);
    }
  }

  /** The filtered array is empty exactly when no element satisfies p, and otherwise begins with
      the first element that does. */
  lemma {:induction false} FilterFirst<T>(s: seq<T>, p: T -> bool)
    ensures |Filter(s, p)| == 0 <==> forall i :: 0 <= i < |s| ==> !p(s[i])
    ensures forall i :: 0 <= i < |s| && p(s[i]) && (forall j :: 0 <= j < i ==> !p(s[j])) ==>
              0 < |Filter(s, p)| && Filter(s, p)[0] == s[i]
  {
    if |s| != 0 {
      FilterFirst(s[1..], p);
      if !p(s[0]) {
        forall i | 0 <= i < |s| && p(s[i]) && (forall j :: 0 <= j < i ==> !p(s[j]))
          ensures 0 < |Filter(s, p)| && Filter(s, p)[0] == s[i]
        {
          assert forall j :: 0 <= j < i - 1 ==> !p(s[1..][j]) by {
            forall j | 0 <= j < i - 1 ensures !p(s[1..][j]) { assert s[1..][j] == s[j + 1]; }
          }
          assert s[1..][i - 1] == s[i];
        }
        if forall i :: 0 <= i < |s[1..]| ==> !p(s[1..][i]) {
          forall i | 0 <= i < |s| ensures !p(s[i]) {
            if 0 < i { assert s[1..][i - 1] == s[i]; }
          }
        }
      }
    }
  }

  // ---------------------------------------------------------------------------
  // forEach callbacks that overwrite a field with the current index

  /** When a `forEach` callback writes `index` for every element that satisfies p, the value left
      behind is the last such index; None when no element satisfies p. */
  function LastIndexWhere<T>(s: seq<T>, p: T -> bool): (r: Option<nat>)
    ensures r.Some? ==> r.value < |s| && p(s[r.value]) && forall j :: r.value < j < |s| ==> !p(s[j])
    ensures r.None? ==> forall j :: 0 <= j < |s| ==> !p(s[j])
  {
    if |s| == 0 then None
    else if p(s[|s| - 1]) then Some(|s| - 1)
    else LastIndexWhere(s[..|s| - 1], p)
  }

  /** One more iteration of such a loop: the newest match wins, otherwise the old answer stays. */
  lemma LastIndexWhereStep<T>(s: seq<T>, i: nat, p: T -> bool)
    requires i < |s|
    ensures LastIndexWhere(s[..i + 1], p) ==
              if p(s[i]) then Some(i) else LastIndexWhere(s[..i], p)
  {
    assert s[..i + 1][..i] == s[..i];
  }
}
