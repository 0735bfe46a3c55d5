/** Pulling a bearer token out of an `Authorization` header, as both authentication
    middlewares do: `authHeader && authHeader.split(' ')[1]`, where an absent header, an empty
    header, a missing second piece and an empty second piece all count as "no token". */
module BearerTokens {
  import opened Wrappers
  import opened HttpResponses

  /** What an authentication middleware does with a request: either it sets `req.user` and
      calls `next()` exactly once, writing no response, or it writes exactly one response and
      neither calls `next()` nor sets `req.user`. */
  datatype AuthOutcome<U> = Proceed(user: U) | Reject(response: HttpResponse)

  /** `pieces.join(sep)`. */
  function Join(pieces: seq<string>, sep: char): string
  {
    if |pieces| == 0 then ""
    else if |pieces| == 1 then pieces[0]
    else pieces[0] + [sep] + Join(pieces[1..], sep)
  }

  /** JavaScript's `s.split(sep)` for a one-character separator: the maximal runs between
      separators, empty runs included, so there is always one more piece than separators. */
  function Split(s: string, sep: char): (pieces: seq<string>)
    ensures |pieces| >= 1
    ensures forall k :: 0 <= k < |pieces| ==> sep !in pieces[k]
    ensures Join(pieces, sep) == s
    decreases |s|
  {
    if s == [] then [""]
    else
      var rest := Split(s[1..], sep);
      if s[0] == sep then
        assert ([""] + rest)[1..] == rest;
        [""] + rest
      else
        var pieces := [[s[0]] + rest[0]] + rest[1..];
        assert pieces[1..] == rest[1..];
        assert s == [s[0]] + s[1..];
        pieces
  }

  lemma {:induction false} SplitWithoutSeparator(a: string, sep: char)
    requires sep !in a
    ensures Split(a, sep) == [a]
    decreases |a|
  {
    if a != [] {
      assert sep !in a[1..];
      SplitWithoutSeparator(a[1..], sep);
      assert [a[0]] + a[1..] == a;
    }
  }

  /** Everything before the first separator is the first piece. */
  lemma {:induction false} SplitAtFirstSeparator(a: string, b: string, sep: char)
    requires sep !in a
    ensures Split(a + [sep] + b, sep) == [a] + Split(b, sep)
    decreases |a|
  {
    var s := a + [sep] + b;
    if a == [] {
      assert s[1..] == b;
    } else {
      assert s[1..] == a[1..] + [sep] + b;
      assert sep !in a[1..];
      SplitAtFirstSeparator(a[1..], b, sep);
      assert [a[0]] + a[1..] == a;
    }
  }

  /** Splitting undoes joining pieces that contain no separator. */
  lemma {:induction false} SplitJoin(pieces: seq<string>, sep: char)
    requires |pieces| >= 1
    requires forall k :: 0 <= k < |pieces| ==> sep !in pieces[k]
    ensures Split(Join(pieces, sep), sep) == pieces
  {
    if |pieces| == 1 {
      SplitWithoutSeparator(pieces[0], sep);
    } else {
      SplitJoin(pieces[1..], sep);
      SplitAtFirstSeparator(pieces[0], Join(pieces[1..], sep), sep);
      assert [pieces[0]] + pieces[1..] == pieces;
    }
  }

  /** The token of a header, if the header yields one. */
  function ExtractToken(header: Option<string>): (token: Option<string>)
    ensures token.Some? ==> token.value != "" && ' ' !in token.value
  {
    match header
    case None => None
    case Some(h) =>
      if h == "" then None
      else
        var pieces := Split(h, ' ');
        if |pieces| >= 2 && pieces[1] != "" then Some(pieces[1]) else None
  }

  /** `h` is a scheme word, one space, then `token`, then nothing or more space-led text. */
  predicate BearerShape(h: string, scheme: string, token: string, rest: string)
  {
    && ' ' !in scheme
    && (rest == "" || rest[0] == ' ')
    && h == scheme + " " + token + rest
  }

  /** A header of the form "Bearer <token>" (any space-free first word) yields the token. */
  lemma {:induction false} TokenOfBearerHeader(h: string, scheme: string, token: string, rest: string)
    requires BearerShape(h, scheme, token, rest)
    requires token != "" && ' ' !in token
    ensures ExtractToken(Some(h)) == Some(token)
  {
    var tail := token + rest;
    assert h == scheme + [' '] + tail;
    SplitAtFirstSeparator(scheme, tail, ' ');
    if rest == "" {
      assert tail == token;
      SplitWithoutSeparator(token, ' ');
    } else {
      assert tail == token + [' '] + rest[1..];
      SplitAtFirstSeparator(token, rest[1..], ' ');
    }
    assert Split(tail, ' ')[0] == token;
    assert Split(h, ' ')[1] == token;
  }

  /** Conversely, a token always is the text between the first space and the next space or
      the end of the header. */
  lemma {:induction false} TokenIsSecondWord(h: string, token: string)
    requires ExtractToken(Some(h)) == Some(token)
    ensures exists scheme, rest :: BearerShape(h, scheme, token, rest)
  {
    var pieces := Split(h, ' ');
    var scheme := pieces[0];
    var rest := if |pieces| == 2 then "" else " " + Join(pieces[2..], ' ');
    assert pieces[1..][1..] == pieces[2..];
    assert Join(pieces[1..], ' ') == token + rest;
    assert h == scheme + " " + (token + rest);
    assert BearerShape(h, scheme, token, rest);
  }
}
