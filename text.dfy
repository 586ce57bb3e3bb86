/**
 * The string handling of a "/start" message: PHP's trim(), the
 * strpos(...) === 0 prefix test, explode(' ', ...) and PHP truthiness of
 * the referral argument.
 */
module Text {
  import opened Wrappers

  /** The characters PHP's trim() strips by default: " \t\n\r\0\x0B". */
  predicate IsTrimChar(c: char)
  {
    c == ' ' || c == '\t' || c == '\n' || c == '\r' || c == '\0' || c == '\U{0B}'
  }

  /** `s` without its leading trim characters. */
  function TrimLeft(s: string): (r: string)
    ensures |r| <= |s| && r == s[|s| - |r|..]
    ensures forall i :: 0 <= i < |s| - |r| ==> IsTrimChar(s[i])
    ensures r == [] || !IsTrimChar(r[0])
  {
    if |s| > 0 && IsTrimChar(s[0]) then TrimLeft(s[1..]) else s
  }

  /** `s` without its trailing trim characters. */
  function TrimRight(s: string): (r: string)
    ensures |r| <= |s| && r == s[..|r|]
    ensures forall i :: |r| <= i < |s| ==> IsTrimChar(s[i])
    ensures r == [] || !IsTrimChar(r[|r| - 1])
  {
    if |s| > 0 && IsTrimChar(s[|s| - 1]) then TrimRight(s[..|s| - 1]) else s
  }

  /** `r` is `s` with its first `i` characters and some last ones removed, all of them trim characters. */
  ghost predicate StrippedAt(s: string, r: string, i: int)
  {
    && 0 <= i && i + |r| <= |s| && r == s[i..i + |r|]
    && (forall k :: 0 <= k < i ==> IsTrimChar(s[k]))
    && (forall k :: i + |r| <= k < |s| ==> IsTrimChar(s[k]))
  }

  /** PHP's trim(s): `s` with its leading and trailing trim characters removed, and nothing else. */
  function Trim(s: string): (r: string)
    ensures |r| <= |s|
    ensures r == [] || (!IsTrimChar(r[0]) && !IsTrimChar(r[|r| - 1]))
    ensures exists i :: StrippedAt(s, r, i)
  {
    TrimLeftThenRight(s);
    TrimRight(TrimLeft(s))
  }

  /** Trimming the left, then the right, strips only trim characters from the two ends. */
  lemma TrimLeftThenRight(s: string)
    ensures StrippedAt(s, TrimRight(TrimLeft(s)), |s| - |TrimLeft(s)|)
  {
    var l := TrimLeft(s);
    StripComposition(s, l, TrimRight(l), |s| - |l|);
  }

  /** Stripping a prefix of trim characters, then a suffix of them, strips only those. */
  lemma StripComposition(s: string, l: string, r: string, i: int)
    requires 0 <= i <= |s| && l == s[i..]
    requires forall k :: 0 <= k < i ==> IsTrimChar(s[k])
    requires |r| <= |l| && r == l[..|r|]
    requires forall j :: |r| <= j < |l| ==> IsTrimChar(l[j])
    ensures StrippedAt(s, r, i)
  {
    assert s[i..][..|r|] == s[i..i + |r|];
    forall k | i + |r| <= k < |s|
      ensures IsTrimChar(s[k])
    {
      assert s[k] == l[k - i];
    }
  }

  /** Trimming twice is trimming once. */
  lemma TrimIdempotent(s: string)
    ensures Trim(Trim(s)) == Trim(s)
  {
    var t := Trim(s);
    assert TrimLeft(t) == t;
    assert TrimRight(t) == t;
  }

  /** strpos(text, '/start') === 0: the text begins with "/start". */
  predicate IsStartCommand(text: string): (b: bool)
    ensures b <==> |text| >= 6 && forall i :: 0 <= i < 6 ==> text[i] == "/start"[i]
  {
    "/start" <= text
  }

  /** PHP's explode(' ', s): the pieces between single spaces, empty pieces kept. */
  function Explode(s: string): (parts: seq<string>)
    ensures |parts| >= 1
    ensures forall i :: 0 <= i < |parts| ==> ' ' !in parts[i]
  {
    if |s| == 0 then [""]
    else
      var rest := Explode(s[1..]);
      if s[0] == ' ' then [""] + rest
      else [[s[0]] + rest[0]] + rest[1..]
  }

  /** PHP's implode(' ', parts), the inverse of Explode. */
  function Join(parts: seq<string>): string
    requires |parts| >= 1
  {
    if |parts| == 1 then parts[0] else parts[0] + " " + Join(parts[1..])
  }

  /** Exploding at spaces loses nothing: joining the pieces gives the text back. */
  lemma {:induction false} JoinExplode(s: string)
    ensures Join(Explode(s)) == s
  {
    if |s| > 0 {
      JoinExplode(s[1..]);
      var rest := Explode(s[1..]);
      if s[0] == ' ' {
        assert Explode(s) == [""] + rest;
        assert ([""] + rest)[1..] == rest;
      } else {
        var parts := [[s[0]] + rest[0]] + rest[1..];
        assert Explode(s) == parts;
        if |rest| == 1 {
          assert Join(parts) == [s[0]] + rest[0];
        } else {
          assert parts[1..] == rest[1..];
          assert Join(parts) == [s[0]] + rest[0] + " " + Join(rest[1..]);
        }
      }
    }
  }

  /** A piece without spaces followed by a space and more text explodes to that piece first. */
  lemma {:induction false} ExplodeAfterWord(w: string, t: string)
    requires ' ' !in w
    ensures Explode(w + " " + t) == [w] + Explode(t)
  {
    if |w| == 0 {
      assert w + " " + t == [' '] + t;
      assert ([' '] + t)[1..] == t;
    } else {
      ExplodeAfterWord(w[1..], t);
      assert (w + " " + t)[1..] == w[1..] + " " + t;
      assert [w[0]] + w[1..] == w;
    }
  }

  /** A text without spaces is a single piece. */
  lemma {:induction false} ExplodeWord(w: string)
    requires ' ' !in w
    ensures Explode(w) == [w]
  {
    if |w| > 0 {
      ExplodeWord(w[1..]);
      assert [w[0]] + w[1..] == w;
    }
  }

  /** explode(' ', s) has a second piece exactly when `s` contains a space. */
  lemma {:induction false} ExplodeHasSecondPiece(s: string)
    ensures |Explode(s)| >= 2 <==> ' ' in s
  {
    if |s| > 0 {
      ExplodeHasSecondPiece(s[1..]);
      assert s == [s[0]] + s[1..];
    }
  }

  /** explode(' ', text)[1] ?? null: the second piece, if there is one. */
  function StartArgument(text: string): (arg: Option<string>)
    ensures arg.Some? <==> ' ' in text
    ensures arg.Some? ==> ' ' !in arg.value
  {
    ExplodeHasSecondPiece(text);
    var parts := Explode(text);
    if |parts| >= 2 then Some(parts[1]) else None
  }

  /** The deep link t.me/<bot>?start=<code> arrives as "/start <code>" and yields that code. */
  lemma StartArgumentOfDeepLink(code: string)
    requires ' ' !in code
    ensures IsStartCommand("/start " + code)
    ensures StartArgument("/start " + code) == Some(code)
  {
    assert ' ' !in "/start";
    ExplodeAfterWord("/start", code);
    ExplodeWord(code);
    assert "/start" + " " + code == "/start " + code;
    assert ("/start " + code)[..6] == "/start";
  }

  /** PHP truthiness of a string: "" and "0" are false. */
  predicate PhpTruthy(s: string): (b: bool)
    ensures |s| == 0 ==> !b
    ensures |s| == 1 ==> (b <==> s[0] != '0')
    ensures |s| >= 2 ==> b
  {
    s != "" && s != "0"
  }
}
