/** The directive recognisers of the engines (the `INCLUDE`, `PRAGMA_ONCE`,
    `IFDEF` and `ENDIF` regular expressions) abstracted as one classifier
    from a line to its shape. Each engine decides which shapes it reacts to. */
module Lines {

  datatype Directive =
    | IfDef(negated: bool, name: string)            // `#ifdef NAME` / `#ifndef NAME`
    | EndIf                                         // `#endif`
    | PragmaOnce                                    // `#pragma once`
    | Include(lb: char, path: seq<string>, rb: char) // `#include` + bracket, path, bracket
    | Plain                                         // anything else

  /** The Unicode White_Space property, which `char::is_whitespace` tests:
      U+0009 to U+000D, the space, U+0085, U+00A0, U+1680, U+2000 to U+200A,
      U+2028, U+2029, U+202F, U+205F and U+3000. */
  predicate IsSpace(c: char) {
    || ('\U{0009}' <= c <= '\U{000D}')
    || c == ' ' || c == '\U{0085}' || c == '\U{00A0}' || c == '\U{1680}'
    || ('\U{2000}' <= c <= '\U{200A}')
    || c == '\U{2028}' || c == '\U{2029}' || c == '\U{202F}' || c == '\U{205F}' || c == '\U{3000}'
  }

  /** `str::trim_end`: drops trailing white space. */
  function TrimEnd(s: string): (r: string)
    ensures r <= s
    ensures r == [] || !IsSpace(r[|r| - 1])
    ensures forall i :: |r| <= i < |s| ==> IsSpace(s[i])
  {
    if s == [] || !IsSpace(s[|s| - 1]) then s else TrimEnd(s[..|s| - 1])
  }
}
