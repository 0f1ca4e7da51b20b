/** Quoted text in which the quote character stands for itself when doubled:
    SQL character string literals (ISO/IEC 9075-2, Subclause 5.3) quote with
    `'`, CSV fields (section 2 of RFC 4180) with `"`. */
module Quoting {
  import opened Common

  /** `s.replace(/q/g, qq)`: every quote doubled. */
  function Double(q: char, s: string): string {
    if s == [] then [] else (if s[0] == q then [q, q] else [s[0]]) + Double(q, s[1..])
  }

  /** Reading escaped text back: a doubled quote stands for one quote. */
  function Collapse(q: char, s: string): string {
    if s == [] then []
    else if |s| >= 2 && s[0] == q && s[1] == q then [q] + Collapse(q, s[2..])
    else [s[0]] + Collapse(q, s[1..])
  }

  /** Text that may stand between two quotes: each of its quotes is one of a
      doubled pair. */
  predicate Escaped(q: char, s: string) {
    if s == [] then true
    else if s[0] == q then |s| >= 2 && s[1] == q && Escaped(q, s[2..])
    else Escaped(q, s[1..])
  }

  /** Reads quoted text whose opening quote has been consumed: the text up to
      the first quote that is not doubled, and what follows that closing quote. */
  function ReadBody(q: char, s: string): (r: Option<(string, string)>)
    ensures r.Some? ==> |r.value.1| < |s|
  {
    if s == [] then None
    else if s[0] == q then
      if |s| >= 2 && s[1] == q then
        match ReadBody(q, s[2..])
        case None => None
        case Some(b) => Some(([q] + b.0, b.1))
      else Some(([], s[1..]))
    else
      match ReadBody(q, s[1..])
      case None => None
      case Some(b) => Some(([s[0]] + b.0, b.1))
  }

  /** Doubling escapes any text, and collapsing undoes it. */
  lemma {:induction false} DoubleSpec(q: char, s: string)
    ensures Escaped(q, Double(q, s))
    ensures Collapse(q, Double(q, s)) == s
  {
    if s != [] {
      DoubleSpec(q, s[1..]);
      var rest := Double(q, s[1..]);
      if s[0] == q {
        assert Double(q, s) == [q, q] + rest;
        assert ([q, q] + rest)[2..] == rest;
      } else {
        assert Double(q, s) == [s[0]] + rest;
        assert ([s[0]] + rest)[1..] == rest;
      }
      assert s == [s[0]] + s[1..];
    }
  }

  /** Text without the quote character is escaped as it stands. */
  lemma {:induction false} PlainEscaped(q: char, s: string)
    requires q !in s
    ensures Escaped(q, s) && Collapse(q, s) == s && Double(q, s) == s
  {
    if s != [] {
      assert q !in s[1..] by {
        assert forall c :: c in s[1..] ==> c in s;
      }
      PlainEscaped(q, s[1..]);
      assert s == [s[0]] + s[1..];
    }
  }

  /** The reader stops exactly at the quote that closes escaped text, whatever
      follows it (unless a quote follows, which would make a doubled pair), and
      returns the text the escape stands for. */
  lemma {:induction false} ReadEscaped(q: char, s: string, rest: string)
    requires Escaped(q, s)
    requires rest == [] || rest[0] != q
    ensures ReadBody(q, s + [q] + rest) == Some((Collapse(q, s), rest))
  {
    var t := s + [q] + rest;
    if s == [] {
      assert t == [q] + rest;
      assert t[1..] == rest;
    } else if s[0] == q {
      ReadEscaped(q, s[2..], rest);
      assert t[2..] == s[2..] + [q] + rest;
    } else {
      ReadEscaped(q, s[1..], rest);
      assert t[1..] == s[1..] + [q] + rest;
    }
  }
}
