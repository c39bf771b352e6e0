/** The string helpers of the in-game importer (ct_module/src/utils.ts):
  * turning a menu label into a lookup key, checking that a key is in that
  * form, and stripping Minecraft formatting codes. */
module CtUtils {
  import opened Wrappers
  import opened Styles

  /** The characters JavaScript's `\s` and `String.prototype.trim` treat as
    * white space: the ECMAScript white-space and line-terminator
    * characters. */
  predicate IsSpace(c: char)
  {
    c == '\t' || c == '\n' || c == '\U{B}' || c == '\U{C}' || c == '\r' || c == ' '
    || c == '\U{A0}' || c == '\U{1680}' || ('\U{2000}' <= c <= '\U{200A}')
    || c == '\U{2028}' || c == '\U{2029}' || c == '\U{202F}' || c == '\U{205F}'
    || c == '\U{3000}' || c == '\U{FEFF}'
  }

  /** `[a-zA-Z0-9_]`. */
  predicate IsWordChar(c: char)
  {
    IsUpper(c) || IsLower(c) || ('0' <= c <= '9') || c == '_'
  }

  /** `[a-z0-9_]`: the characters of a normalized key. */
  predicate IsKeyChar(c: char)
  {
    IsLower(c) || ('0' <= c <= '9') || c == '_'
  }

  predicate NoSpace(s: string)
  {
    forall i :: 0 <= i < |s| ==> !IsSpace(s[i])
  }

  predicate AllKeyChars(s: string)
  {
    forall i :: 0 <= i < |s| ==> IsKeyChar(s[i])
  }

  /** The leading white space removed: what is left is a suffix of `s`
    * that does not start with white space, and all that was cut is white
    * space. */
  function TrimStart(s: string): (r: string)
    ensures |r| <= |s| && r == s[|s| - |r|..]
    ensures |r| > 0 ==> !IsSpace(r[0])
    ensures forall i :: 0 <= i < |s| - |r| ==> IsSpace(s[i])
  {
    if |s| > 0 && IsSpace(s[0]) then TrimStart(s[1..]) else s
  }

  /** The trailing white space removed, symmetrically. */
  function TrimEnd(s: string): (r: string)
    ensures |r| <= |s| && r == s[..|r|]
    ensures |r| > 0 ==> !IsSpace(r[|r| - 1])
    ensures forall i :: |r| <= i < |s| ==> IsSpace(s[i])
  {
    if |s| > 0 && IsSpace(s[|s| - 1]) then TrimEnd(s[..|s| - 1]) else s
  }

  /** `str.trim()`. */
  function Trim(s: string): (r: string)
    ensures |r| > 0 ==> !IsSpace(r[0]) && !IsSpace(r[|r| - 1])
    ensures NoSpace(s) ==> r == s
  {
    var t := TrimStart(s);
    if NoSpace(s) then
      assert NoSpace(t);
      TrimEnd(t)
    else TrimEnd(t)
  }

  /** `.replace(/\s+/g, '_')`: every maximal run of white space becomes one
    * underscore. */
  function CollapseSpaces(s: string): (r: string)
    ensures |r| <= |s|
    ensures NoSpace(r)
    ensures NoSpace(s) ==> r == s
    decreases |s|
  {
    if |s| == 0 then ""
    else if IsSpace(s[0]) then
      var c := CollapseSpaces(TrimStart(s[1..]));
      NoSpaceCons('_', c);
      "_" + c
    else
      var c := CollapseSpaces(s[1..]);
      NoSpaceCons(s[0], c);
      NoSpaceTail(s);
      [s[0]] + c
  }

  lemma NoSpaceCons(ch: char, t: string)
    requires !IsSpace(ch) && NoSpace(t)
    ensures NoSpace([ch] + t)
  {
    var u := [ch] + t;
    assert forall i :: 1 <= i < |u| ==> u[i] == t[i - 1];
  }

  lemma NoSpaceTail(s: string)
    requires |s| > 0
    ensures NoSpace(s) ==> NoSpace(s[1..]) && s == [s[0]] + s[1..]
  {
    assert forall i :: 0 <= i < |s| - 1 ==> s[1..][i] == s[i + 1];
  }

  /** `.replace(/[^a-zA-Z0-9_]/g, '')`: the word characters, in order. */
  function KeepWordChars(s: string): (r: string)
    ensures |r| <= |s|
    ensures forall i :: 0 <= i < |r| ==> IsWordChar(r[i])
    ensures (forall i :: 0 <= i < |s| ==> IsWordChar(s[i])) ==> r == s
  {
    if |s| == 0 then ""
    else
      assert forall i :: 1 <= i < |s| ==> s[1..][i - 1] == s[i];
      (if IsWordChar(s[0]) then [s[0]] else []) + KeepWordChars(s[1..])
  }

  /** `normalized(str)` (ct_module/src/utils.ts:3-9): trimmed, white-space
    * runs turned into `_`, everything but `[a-zA-Z0-9_]` removed, then
    * lower-cased. */
  function Normalized(s: string): (r: string)
    ensures AllKeyChars(r)
    ensures AllKeyChars(s) ==> r == s
  {
    var kept := KeepWordChars(CollapseSpaces(Trim(s)));
    LowerWordChars(kept);
    if AllKeyChars(s) then
      KeyCharsStay(s);
      Lower(kept)
    else Lower(kept)
  }

  /** Lower-casing word characters gives key characters. */
  lemma LowerWordChars(s: string)
    requires forall i :: 0 <= i < |s| ==> IsWordChar(s[i])
    ensures AllKeyChars(Lower(s))
  {
    var r := Lower(s);
    forall i | 0 <= i < |r|
      ensures IsKeyChar(r[i])
    {
      assert r[i] == LowerChar(s[i]);
    }
  }

  /** Key characters pass every step of `normalized` untouched. */
  lemma KeyCharsStay(s: string)
    requires AllKeyChars(s)
    ensures KeepWordChars(CollapseSpaces(Trim(s))) == s
    ensures Lower(s) == s
  {
    forall i | 0 <= i < |s|
      ensures !IsSpace(s[i]) && IsWordChar(s[i]) && LowerChar(s[i]) == s[i]
    {
      assert IsKeyChar(s[i]);
    }
    assert Trim(s) == s;
    assert CollapseSpaces(s) == s;
    assert KeepWordChars(s) == s;
    var l := Lower(s);
    assert forall i :: 0 <= i < |s| ==> l[i] == s[i];
  }

  /** Normalizing twice is normalizing once. */
  lemma NormalizedIdempotent(s: string)
    ensures Normalized(Normalized(s)) == Normalized(s)
  {
  }

  /** What `assertIsNormalized` accepts: a non-empty run of `[a-z0-9_]`. */
  predicate IsNormalizedKey(s: string)
  {
    |s| > 0 && AllKeyChars(s)
  }

  /** The test `/^[a-z0-9_]+$/`, read left to right: it accepts exactly the
    * normalized keys. */
  function MatchesKeyPattern(s: string): (b: bool)
    ensures b <==> IsNormalizedKey(s)
  {
    if |s| == 0 then false
    else
      assert forall i :: 1 <= i < |s| ==> s[1..][i - 1] == s[i];
      IsKeyChar(s[0]) && (|s| == 1 || MatchesKeyPattern(s[1..]))
  }

  /** The message of `assertIsNormalized` (ct_module/src/utils.ts:13). */
  function NotNormalizedMessage(s: string): string
  {
    "Key \"" + s + "\" is not normalized"
  }

  /** `assertIsNormalized(str)` (ct_module/src/utils.ts:11-15): an error
    * exactly when the key is empty or has a character outside
    * `[a-z0-9_]`. */
  function AssertIsNormalized(s: string): (r: Result<(), string>)
    ensures r.Ok? <==> IsNormalizedKey(s)
    ensures r.Err? ==> r.error == NotNormalizedMessage(s)
  {
    if IsNormalizedKey(s) then Ok(()) else Err(NotNormalizedMessage(s))
  }

  /** A normalized string passes `assertIsNormalized` unless it came out empty. */
  lemma NormalizedPasses(s: string)
    ensures AssertIsNormalized(Normalized(s)).Ok? <==> Normalized(s) != ""
  {
  }

  // ---------------------------------------------------------------------
  // Formatting codes

  /** `§` or `&`. */
  predicate IsMarker(c: char)
  {
    c == '\U{A7}' || c == '&'
  }

  /** `[0-9a-fklmnor]`. */
  predicate IsFormatCode(c: char)
  {
    ('0' <= c <= '9') || ('a' <= c <= 'f') || c == 'k' || c == 'l' || c == 'm' || c == 'n'
    || c == 'o' || c == 'r'
  }

  /** Some marker is followed by a formatting code. */
  predicate HasCode(s: string)
  {
    exists i :: 0 <= i < |s| - 1 && IsMarker(s[i]) && IsFormatCode(s[i + 1])
  }

  /** `removeFormatting(str)` (ct_module/src/utils.ts:17-19): the global
    * replace scans left to right and deletes each marker-and-code pair it
    * meets, resuming after the pair. A string with no such pair comes back
    * unchanged; otherwise it comes back at least a pair shorter. */
  function RemoveFormatting(s: string): (r: string)
    ensures |r| <= |s|
    ensures !HasCode(s) ==> r == s
    ensures HasCode(s) ==> |r| <= |s| - 2
  {
    if |s| >= 2 && IsMarker(s[0]) && IsFormatCode(s[1]) then
      RemoveFormatting(s[2..])
    else if |s| == 0 then ""
    else
      var rest := s[1..];
      assert HasCode(rest) ==> HasCode(s) by {
        if HasCode(rest) {
          var i :| 0 <= i < |rest| - 1 && IsMarker(rest[i]) && IsFormatCode(rest[i + 1]);
          assert IsMarker(s[i + 1]) && IsFormatCode(s[i + 2]);
        }
      }
      assert HasCode(s) ==> HasCode(rest) by {
        if HasCode(s) {
          var i :| 0 <= i < |s| - 1 && IsMarker(s[i]) && IsFormatCode(s[i + 1]);
          assert i > 0;
          assert IsMarker(rest[i - 1]) && IsFormatCode(rest[i]);
        }
      }
      [s[0]] + RemoveFormatting(rest)
  }

  /** Removing formatting is not idempotent: a pair can be formed by the
    * characters left around a removed one. */
  lemma RemoveFormattingNotIdempotent()
    ensures RemoveFormatting("&&aa") == "&a"
    ensures RemoveFormatting(RemoveFormatting("&&aa")) == ""
  {
    assert "&&aa"[1..] == "&aa";
    assert "&aa"[2..] == "a";
    assert "&a"[2..] == "";
  }

  /** Text without markers is never changed. */
  lemma NoMarkerUnchanged(s: string)
    requires forall i :: 0 <= i < |s| ==> !IsMarker(s[i])
    ensures RemoveFormatting(s) == s
  {
  }
}
