/** The mailbox check of the scheduling flow: the regular expression
    `^[^\s@]+@[^\s@]+\.[^\s@]+$` matched against the whole message text.
    `Matches` runs the expression as a finite automaton over the text, left to
    right; `MailboxShape` states the language it denotes; `MatchesIffShape`
    proves the two agree on every string. */
module EmailSyntax {
  import opened JsText

  /** A character of the class `[^\s@]`. */
  predicate Plain(c: char) {
    !IsSpace(c) && c != '@'
  }

  predicate AllPlain(x: string) {
    forall k :: 0 <= k < |x| ==> Plain(x[k])
  }

  /** The domain part `[^\s@]+\.[^\s@]+`: plain characters with a '.' that is
      neither the first nor the last one ('.' is itself plain). */
  ghost predicate DomainShape(d: string) {
    AllPlain(d) && exists k :: 0 < k < |d| - 1 && d[k] == '.'
  }

  /** The whole text is `local@domain` with a non-empty plain local part. */
  ghost predicate SplitAt(s: string, at: int) {
    0 < at < |s| && s[at] == '@' && AllPlain(s[..at]) && DomainShape(s[at + 1..])
  }

  /** The language of the expression. */
  ghost predicate MailboxShape(s: string) {
    exists at :: SplitAt(s, at)
  }

  /** Automaton states: what has been read so far. */
  datatype Phase =
    | Start      // nothing
    | Local      // a non-empty local part
    | AfterAt    // the local part and the '@'
    | Domain     // at least one domain character, no '.' after the first one
    | DotSeen    // the last domain character is a '.' that is not the first
    | Accept     // a '.' with domain characters on both sides
    | Reject     // no continuation can match

  function Delta(q: Phase, c: char): Phase {
    if IsSpace(c) then Reject
    else match q
      case Start => if c == '@' then Reject else Local
      case Local => if c == '@' then AfterAt else Local
      case AfterAt => if c == '@' then Reject else Domain
      case Domain => if c == '@' then Reject else if c == '.' then DotSeen else Domain
      case DotSeen => if c == '@' then Reject else Accept
      case Accept => if c == '@' then Reject else Accept
      case Reject => Reject
  }

  function Scan(q: Phase, s: string): Phase
    decreases |s|
  {
    if s == [] then q else Scan(Delta(q, s[0]), s[1..])
  }

  /** `emailRegex.test(text)`. */
  predicate Matches(s: string) {
    Scan(Start, s) == Accept
  }

  /** The inputs each state still accepts. */
  ghost predicate Accepts(q: Phase, y: string) {
    match q
    case Start => MailboxShape(y)
    case Local => exists at :: 0 <= at < |y| && y[at] == '@' && AllPlain(y[..at]) && DomainShape(y[at + 1..])
    case AfterAt => DomainShape(y)
    case Domain => AllPlain(y) && exists k :: 0 <= k < |y| - 1 && y[k] == '.'
    case DotSeen => |y| >= 1 && AllPlain(y)
    case Accept => AllPlain(y)
    case Reject => false
  }

  lemma AllPlainCons(c: char, y: string)
    ensures AllPlain([c] + y) <==> Plain(c) && AllPlain(y)
  {
    var x := [c] + y;
    if Plain(c) && AllPlain(y) {
      forall k | 0 <= k < |x| ensures Plain(x[k]) {
        if k > 0 { assert x[k] == y[k - 1]; }
      }
    }
    if AllPlain(x) {
      assert x[0] == c;
      forall k | 0 <= k < |y| ensures Plain(y[k]) {
        assert y[k] == x[k + 1];
      }
    }
  }

  lemma DomainCons(c: char, y: string)
    requires Plain(c)
    ensures DomainShape([c] + y) <==> AllPlain(y) && exists k :: 0 <= k < |y| - 1 && y[k] == '.'
  {
    var x := [c] + y;
    AllPlainCons(c, y);
    if DomainShape(x) {
      var k :| 0 < k < |x| - 1 && x[k] == '.';
      assert y[k - 1] == '.';
    }
    if AllPlain(y) && exists k :: 0 <= k < |y| - 1 && y[k] == '.' {
      var k :| 0 <= k < |y| - 1 && y[k] == '.';
      assert x[k + 1] == '.';
    }
  }

  lemma DerivativeStart(c: char, y: string)
    ensures MailboxShape([c] + y) <==> Accepts(Delta(Start, c), y)
  {
    AllPlainCons(c, y);
    assert ([c] + y)[0] == c;
    if MailboxShape([c] + y) {
      StartShapeTail(c, y);
    }
    if Plain(c) && Accepts(Local, y) {
      StartShapeCons(c, y);
    }
  }

  lemma StartShapeTail(c: char, y: string)
    requires MailboxShape([c] + y)
    ensures Plain(c) && Accepts(Local, y)
  {
    var x := [c] + y;
    var at :| SplitAt(x, at);
    assert x[..at] == [c] + y[..at - 1];
    AllPlainCons(c, y[..at - 1]);
    assert x[at + 1..] == y[at..];
  }

  lemma StartShapeCons(c: char, y: string)
    requires Plain(c) && Accepts(Local, y)
    ensures MailboxShape([c] + y)
  {
    var x := [c] + y;
    var at :| 0 <= at < |y| && y[at] == '@' && AllPlain(y[..at]) && DomainShape(y[at + 1..]);
    assert x[..at + 1] == [c] + y[..at];
    AllPlainCons(c, y[..at]);
    assert x[at + 2..] == y[at + 1..];
    assert SplitAt(x, at + 1);
  }

  lemma DerivativeLocal(c: char, y: string)
    ensures Accepts(Local, [c] + y) <==> Accepts(Delta(Local, c), y)
  {
    var x := [c] + y;
    AllPlainCons(c, y);
    assert x[0] == c;
    if c == '@' {
      LocalAtHead(y);
    } else if Plain(c) {
      LocalPlainHead(c, y);
    } else {
      LocalSpaceHead(c, y);
    }
  }

  lemma LocalAtHead(y: string)
    ensures Accepts(Local, ['@'] + y) <==> DomainShape(y)
  {
    if Accepts(Local, ['@'] + y) {
      LocalAtHeadTail(y);
    }
    if DomainShape(y) {
      var x := ['@'] + y;
      assert x[..0] == [];
      assert x[1..] == y;
    }
  }

  lemma PlainPrefix(x: string, n: nat)
    requires n <= |x| && AllPlain(x[..n])
    ensures forall k :: 0 <= k < n ==> Plain(x[k])
  {
    forall k | 0 <= k < n ensures Plain(x[k]) {
      assert x[k] == x[..n][k];
    }
  }

  lemma LocalAtHeadTail(y: string)
    requires Accepts(Local, ['@'] + y)
    ensures DomainShape(y)
  {
    var x := ['@'] + y;
    var at :| 0 <= at < |x| && x[at] == '@' && AllPlain(x[..at]) && DomainShape(x[at + 1..]);
    assert x[0] == '@';
    PlainPrefix(x, at);
    assert at == 0;
    assert x[1..] == y;
  }

  lemma LocalPlainHead(c: char, y: string)
    requires Plain(c)
    ensures Accepts(Local, [c] + y) <==> Accepts(Local, y)
  {
    if Accepts(Local, [c] + y) {
      LocalDropsPlain(c, y);
    }
    if Accepts(Local, y) {
      LocalAddsPlain(c, y);
    }
  }

  lemma LocalDropsPlain(c: char, y: string)
    requires Plain(c) && Accepts(Local, [c] + y)
    ensures Accepts(Local, y)
  {
    var x := [c] + y;
    var at :| 0 <= at < |x| && x[at] == '@' && AllPlain(x[..at]) && DomainShape(x[at + 1..]);
    assert at != 0;
    assert x[..at] == [c] + y[..at - 1];
    AllPlainCons(c, y[..at - 1]);
    assert x[at + 1..] == y[at..];
  }

  lemma LocalAddsPlain(c: char, y: string)
    requires Plain(c) && Accepts(Local, y)
    ensures Accepts(Local, [c] + y)
  {
    var x := [c] + y;
    var at :| 0 <= at < |y| && y[at] == '@' && AllPlain(y[..at]) && DomainShape(y[at + 1..]);
    assert x[..at + 1] == [c] + y[..at];
    AllPlainCons(c, y[..at]);
    assert x[at + 2..] == y[at + 1..];
    assert x[at + 1] == '@';
  }

  lemma LocalSpaceHead(c: char, y: string)
    requires IsSpace(c)
    ensures !Accepts(Local, [c] + y)
  {
    var x := [c] + y;
    forall at | 0 <= at < |x| && x[at] == '@'
      ensures !AllPlain(x[..at])
    {
      assert at > 0;
      assert x[..at][0] == c;
    }
  }

  lemma DerivativeDomain(c: char, y: string)
    ensures Accepts(Domain, [c] + y) <==> Accepts(Delta(Domain, c), y)
  {
    var x := [c] + y;
    AllPlainCons(c, y);
    assert x[0] == c;
    if Plain(c) && c == '.' && |y| >= 1 && AllPlain(y) {
      assert x[0] == '.';
    }
    if Plain(c) && c != '.' && Accepts(Domain, x) {
      var k :| 0 <= k < |x| - 1 && x[k] == '.';
      assert y[k - 1] == '.';
    }
    if Plain(c) && Accepts(Domain, y) {
      var k :| 0 <= k < |y| - 1 && y[k] == '.';
      assert x[k + 1] == '.';
    }
  }

  /** Reading one character moves the automaton to the state that accepts
      exactly the rest of what the old state accepted. */
  lemma Derivative(q: Phase, c: char, y: string)
    ensures Accepts(q, [c] + y) <==> Accepts(Delta(q, c), y)
  {
    AllPlainCons(c, y);
    match q
    case Start => DerivativeStart(c, y);
    case Local => DerivativeLocal(c, y);
    case AfterAt =>
      if Plain(c) {
        DomainCons(c, y);
      }
    case Domain => DerivativeDomain(c, y);
    case DotSeen =>
    case Accept =>
    case Reject =>
  }

  /** From any state, the automaton ends in Accept exactly on the inputs that
      state accepts. */
  lemma {:induction false} ScanAccepts(q: Phase, y: string)
    ensures Scan(q, y) == Accept <==> Accepts(q, y)
    decreases |y|
  {
    if y == [] {
      match q
      case Start =>
        assert !MailboxShape(y);
      case Local =>
      case AfterAt =>
      case Domain =>
      case DotSeen =>
      case Accept =>
      case Reject =>
    } else {
      assert y == [y[0]] + y[1..];
      Derivative(q, y[0], y[1..]);
      ScanAccepts(Delta(q, y[0]), y[1..]);
    }
  }

  /** The automaton recognises exactly the language of the expression. */
  lemma MatchesIffShape(s: string)
    ensures Matches(s) <==> MailboxShape(s)
  {
    ScanAccepts(Start, s);
  }
}
