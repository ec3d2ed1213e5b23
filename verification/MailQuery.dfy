/** The mail search compiler (mailsearch.py 65-242): words of an Outlook-style query become a DASL
    condition, plus a check of each row afterwards.

    A query arrives as the tokens its regular expression yields. */
module Dasl {
  import opened Common

  datatype Field = Subject | FromName | FromEmail | To | Cc | Body

  datatype Mail = Mail(text: Field -> string, attachment: bool, read: bool, flagged: bool, received: int)

  /** The elementary tests of a condition. */
  datatype Test =
    | Like(field: Field, value: string)
    | AttachmentIs(on: bool)
    | ReadIs(on: bool)
    | FlagIs(on: bool)
    | ReceivedFrom(t: int)
    | ReceivedBefore(t: int)

  datatype Tok = Open | Close | And | Or | Not | Is(test: Test)

  predicate FoundAt(hay: string, needle: string, i: int) {
    0 <= i <= |hay| - |needle| && hay[i..i + |needle|] == needle
  }

  predicate Contains(hay: string, needle: string) {
    exists i | 0 <= i <= |hay| :: FoundAt(hay, needle, i)
  }

  /** To contain a text is to have it between what comes before and what comes after. */
  lemma ContainsBetween(pre: string, needle: string, post: string)
    ensures Contains(pre + needle + post, needle)
  {
    assert FoundAt(pre + needle + post, needle, |pre|);
  }

  lemma WhatIsAround(hay: string, needle: string) returns (pre: string, post: string)
    requires Contains(hay, needle)
    ensures hay == pre + needle + post
  {
    var i :| 0 <= i <= |hay| && FoundAt(hay, needle, i);
    pre, post := hay[..i], hay[i + |needle|..];
  }

  function Lower(low: char -> char, s: string): string {
    seq(|s|, i requires 0 <= i < |s| => low(s[i]))
  }

  /** What the store tests; LIKE is containment without regard to case. */
  predicate Passes(low: char -> char, t: Test, m: Mail) {
    match t
    case Like(f, v) => Contains(Lower(low, m.text(f)), Lower(low, v))
    case AttachmentIs(on) => m.attachment == on
    case ReadIs(on) => m.read == on
    case FlagIs(on) => m.flagged == on
    case ReceivedFrom(t) => t <= m.received
    case ReceivedBefore(t) => m.received < t
  }

  // ---- how the store reads a condition: NOT binds tightest, then AND, then OR ----

  /** A value and what is left unread. */
  type Reading = Option<(bool, seq<Tok>)>

  function ReadOr(low: char -> char, ts: seq<Tok>, m: Mail): (r: Reading)
    ensures r.Some? ==> |r.value.1| < |ts|
    decreases |ts|, 2
  {
    match ReadAnd(low, ts, m)
    case None => None
    case Some((v, rest)) =>
      if rest != [] && rest[0] == Or then
        match ReadOr(low, rest[1..], m)
        case None => None
        case Some((w, end)) => Some((v || w, end))
      else Some((v, rest))
  }

  function ReadAnd(low: char -> char, ts: seq<Tok>, m: Mail): (r: Reading)
    ensures r.Some? ==> |r.value.1| < |ts|
    decreases |ts|, 1
  {
    match ReadNot(low, ts, m)
    case None => None
    case Some((v, rest)) =>
      if rest != [] && rest[0] == And then
        match ReadAnd(low, rest[1..], m)
        case None => None
        case Some((w, end)) => Some((v && w, end))
      else Some((v, rest))
  }

  function ReadNot(low: char -> char, ts: seq<Tok>, m: Mail): (r: Reading)
    ensures r.Some? ==> |r.value.1| < |ts|
    decreases |ts|, 0
  {
    if ts == [] then None
    else
      match ts[0]
      case Is(t) => Some((Passes(low, t, m), ts[1..]))
      case Not =>
        (match ReadNot(low, ts[1..], m)
         case None => None
         case Some((v, rest)) => Some((!v, rest)))
      case Open =>
        (match ReadOr(low, ts[1..], m)
         case None => None
         case Some((v, rest)) => if rest != [] && rest[0] == Close then Some((v, rest[1..])) else None)
      case _ => None
  }

  // ---- what is written is read back ----

  /** The conditions that the compiler writes: tests, NOT, and parenthesised lists. */
  datatype Expr = Leaf(test: Test) | Neg(e: Expr) | AllOf(es: seq<Expr>) | AnyOf(es: seq<Expr>)

  /** Every list has something in it. */
  predicate Filled(e: Expr) {
    match e
    case Leaf(_) => true
    case Neg(f) => Filled(f)
    case AllOf(es) => es != [] && forall f <- es :: Filled(f)
    case AnyOf(es) => es != [] && forall f <- es :: Filled(f)
  }

  function Text(e: Expr): seq<Tok>
    decreases e, 1
  {
    match e
    case Leaf(t) => [Is(t)]
    case Neg(f) => [Not] + Text(f)
    case AllOf(es) => [Open] + Joined(es, And) + [Close]
    case AnyOf(es) => [Open] + Joined(es, Or) + [Close]
  }

  function Joined(es: seq<Expr>, op: Tok): seq<Tok>
    decreases es, 0
  {
    if es == [] then []
    else if |es| == 1 then Text(es[0])
    else Text(es[0]) + ([op] + Joined(es[1..], op))
  }

  predicate Value(low: char -> char, e: Expr, m: Mail)
    decreases e, 1
  {
    match e
    case Leaf(t) => Passes(low, t, m)
    case Neg(f) => !Value(low, f, m)
    case AllOf(es) => All(low, es, m)
    case AnyOf(es) => Any(low, es, m)
  }

  predicate All(low: char -> char, es: seq<Expr>, m: Mail)
    decreases es, 0
  {
    es == [] || (Value(low, es[0], m) && All(low, es[1..], m))
  }

  predicate Any(low: char -> char, es: seq<Expr>, m: Mail)
    decreases es, 0
  {
    es != [] && (Value(low, es[0], m) || Any(low, es[1..], m))
  }

  /** A condition ends at the end of the text, before `)`, or before OR (for a conjunction). */
  predicate Ends(rest: seq<Tok>, op: Tok) { rest == [] || rest[0] == Close || rest[0] == op }

  /** The store reads back what was written: the precedence of the text is the structure meant. */
  lemma {:induction false} ReadsBack(low: char -> char, e: Expr, m: Mail, rest: seq<Tok>)
    requires Filled(e)
    ensures ReadNot(low, Text(e) + rest, m) == Some((Value(low, e, m), rest))
    decreases e, 1
  {
    match e
    case Leaf(t) =>
      assert (Text(e) + rest)[1..] == rest;
    case Neg(f) =>
      assert (Text(e) + rest)[1..] == Text(f) + rest;
      ReadsBack(low, f, m, rest);
    case AllOf(es) =>
      assert (Text(e) + rest)[1..] == Joined(es, And) + ([Close] + rest);
      ConjunctionReads(low, es, m, [Close] + rest);
      ParenthesisCloses(low, Joined(es, And), rest, m, All(low, es, m));
      assert Text(e) + rest == [Open] + (Joined(es, And) + ([Close] + rest));
    case AnyOf(es) =>
      assert (Text(e) + rest)[1..] == Joined(es, Or) + ([Close] + rest);
      DisjunctionReads(low, es, m, [Close] + rest);
      ParenthesisCloses(low, Joined(es, Or), rest, m, Any(low, es, m));
      assert Text(e) + rest == [Open] + (Joined(es, Or) + ([Close] + rest));
  }

  lemma ParenthesisCloses(low: char -> char, inner: seq<Tok>, rest: seq<Tok>, m: Mail, v: bool)
    requires ReadOr(low, inner + ([Close] + rest), m) == Some((v, [Close] + rest))
    ensures ReadNot(low, [Open] + (inner + ([Close] + rest)), m) == Some((v, rest))
  {
    assert ([Open] + (inner + ([Close] + rest)))[1..] == inner + ([Close] + rest);
    assert ([Close] + rest)[1..] == rest;
  }

  lemma {:induction false} ConjunctionReads(low: char -> char, es: seq<Expr>, m: Mail, rest: seq<Tok>)
    requires es != [] && (forall f <- es :: Filled(f)) && Ends(rest, Or)
    ensures ReadAnd(low, Joined(es, And) + rest, m) == Some((All(low, es, m), rest))
    ensures rest == [] || rest[0] == Close ==> ReadOr(low, Joined(es, And) + rest, m) == Some((All(low, es, m), rest))
    decreases es, 0
  {
    if |es| == 1 {
      ReadsBack(low, es[0], m, rest);
      assert All(low, es[1..], m);
    } else {
      var tail := Joined(es[1..], And) + rest;
      assert Joined(es, And) + rest == Text(es[0]) + ([And] + tail);
      assert ([And] + tail)[1..] == tail;
      ReadsBack(low, es[0], m, [And] + tail);
      ConjunctionReads(low, es[1..], m, rest);
    }
  }

  lemma {:induction false} DisjunctionReads(low: char -> char, es: seq<Expr>, m: Mail, rest: seq<Tok>)
    requires es != [] && (forall f <- es :: Filled(f)) && Ends(rest, Close)
    ensures ReadOr(low, Joined(es, Or) + rest, m) == Some((Any(low, es, m), rest))
    decreases es, 0
  {
    if |es| == 1 {
      ReadsBack(low, es[0], m, rest);
      assert !Any(low, es[1..], m);
    } else {
      var tail := Joined(es[1..], Or) + rest;
      assert Joined(es, Or) + rest == Text(es[0]) + ([Or] + tail);
      assert ([Or] + tail)[1..] == tail;
      ReadsBack(low, es[0], m, [Or] + tail);
      DisjunctionReads(low, es[1..], m, rest);
    }
  }

  lemma {:induction false} AllAnyMean(low: char -> char, es: seq<Expr>, m: Mail)
    ensures All(low, es, m) <==> forall i :: 0 <= i < |es| ==> Value(low, es[i], m)
    ensures Any(low, es, m) <==> exists i :: 0 <= i < |es| && Value(low, es[i], m)
  {
    if es == [] {
    } else {
      AllAnyMean(low, es[1..], m);
      assert forall i :: 0 < i < |es| ==> es[i] == es[1..][i - 1];
      if Any(low, es[1..], m) {
        var i :| 0 <= i < |es[1..]| && Value(low, es[1..][i], m);
        assert Value(low, es[i + 1], m);
      }
    }
  }

  // ---- the value inside LIKE '%...%' ----

  /** `replace("'", "''")` */
  function Double(s: string): string {
    if s == "" then "" else (if s[0] == '\'' then "''" else [s[0]]) + Double(s[1..])
  }

  /** Read a quoted literal from behind its opening quote: two quotes stand for one, a single one
      ends it. */
  function ReadLiteral(s: string): Option<(string, string)> {
    if s == "" then None
    else if s[0] != '\'' then
      match ReadLiteral(s[1..])
      case None => None
      case Some((v, rest)) => Some(([s[0]] + v, rest))
    else if |s| > 1 && s[1] == '\'' then
      match ReadLiteral(s[2..])
      case None => None
      case Some((v, rest)) => Some(("'" + v, rest))
    else Some(("", s[1..]))
  }

  /** Whatever the searched text, the literal written for it reads back as that text. */
  lemma {:induction false} LiteralReadsBack(v: string, rest: string)
    requires rest == "" || rest[0] != '\''
    ensures ReadLiteral(Double(v) + "'" + rest) == Some((v, rest))
  {
    var s := Double(v) + "'" + rest;
    if v == "" {
      assert s[1..] == rest;
    } else {
      LiteralReadsBack(v[1..], rest);
      assert v == [v[0]] + v[1..];
      if v[0] == '\'' {
        assert s[2..] == Double(v[1..]) + "'" + rest;
      } else {
        assert s[1..] == Double(v[1..]) + "'" + rest;
      }
    }
  }
}

/** Runs of joined terms. `term[i]` says that position i holds a term, `join[i]` that an OR ties it
    to the term before it. */
module Chains {
  /** Position i belongs to the chain that begins at h. */
  ghost predicate InChain(term: seq<bool>, join: seq<bool>, h: int, i: int)
    requires |join| == |term|
  {
    && 0 <= h <= i < |term| && term[i]
    && forall k :: h < k <= i && term[k] ==> join[k]
  }

  predicate IsHead(term: seq<bool>, join: seq<bool>, h: int)
    requires |join| == |term|
  {
    0 <= h < |term| && term[h] && !join[h]
  }

  /** A joined term has a term to its left. */
  ghost predicate Rooted(term: seq<bool>, join: seq<bool>) {
    && |join| == |term|
    && forall i :: 0 <= i < |term| && term[i] && join[i] ==> exists h :: 0 <= h < i && term[h]
  }

  predicate Below(gs: seq<seq<nat>>, n: nat) {
    forall k :: 0 <= k < |gs| ==> gs[k] != [] && forall x <- gs[k] :: x < n
  }

  /** The groups of the first n positions, as the compiler builds them. */
  ghost function Groups(term: seq<bool>, join: seq<bool>, n: nat): (gs: seq<seq<nat>>)
    requires n <= |term| && Rooted(term, join)
    ensures (gs != [] <==> exists h :: 0 <= h < n && term[h]) && Below(gs, n)
  {
    if n == 0 then []
    else
      var before := Groups(term, join, n - 1);
      if !term[n - 1] then before
      else if join[n - 1] then Grown(before, n - 1)
      else before + [[n - 1]]
  }

  function Grown(gs: seq<seq<nat>>, i: nat): (r: seq<seq<nat>>)
    requires gs != []
    ensures Below(gs, i) ==> Below(r, i + 1)
    ensures |r| == |gs|
  {
    gs[|gs| - 1 := gs[|gs| - 1] + [i]]
  }

  /** The groups are the chains: heads ascend, every head begins one, and a group holds exactly the
      terms of its head's chain. */
  ghost predicate AreChains(term: seq<bool>, join: seq<bool>, n: nat, gs: seq<seq<nat>>)
    requires |join| == |term|
  {
    && Below(gs, n)
    && (forall k :: 0 <= k < |gs| ==> IsHead(term, join, gs[k][0]))
    && (forall k, l :: 0 <= k < l < |gs| ==> gs[k][0] < gs[l][0])
    && (forall h :: IsHead(term, join, h) && h < n ==> Begins(gs, h))
    && (forall k, i :: 0 <= k < |gs| ==> (i in gs[k] <==> i < n && InChain(term, join, gs[k][0], i)))
  }

  ghost predicate Begins(gs: seq<seq<nat>>, h: int) {
    exists k :: 0 <= k < |gs| && gs[k] != [] && gs[k][0] == h
  }

  lemma {:induction false} GroupsAreChains(term: seq<bool>, join: seq<bool>, n: nat)
    requires n <= |term| && Rooted(term, join)
    ensures AreChains(term, join, n, Groups(term, join, n))
  {
    if n == 0 {
    } else {
      GroupsAreChains(term, join, n - 1);
      NextPosition(term, join, n - 1, Groups(term, join, n - 1), Groups(term, join, n));
    }
  }

  lemma NextPosition(term: seq<bool>, join: seq<bool>, i: nat, before: seq<seq<nat>>, after: seq<seq<nat>>)
    requires Rooted(term, join) && i < |term| && AreChains(term, join, i, before)
    requires before == Groups(term, join, i) && after == Groups(term, join, i + 1)
    ensures AreChains(term, join, i + 1, after)
  {
    if term[i] && join[i] {
      ExtendChain(term, join, i, before);
    } else if term[i] {
      NewChain(term, join, i, before);
    } else {
      SkipPosition(term, join, i, before);
    }
  }

  lemma SkipPosition(term: seq<bool>, join: seq<bool>, i: nat, gs: seq<seq<nat>>)
    requires |join| == |term| && i < |term| && AreChains(term, join, i, gs) && !term[i]
    ensures AreChains(term, join, i + 1, gs)
  {
    forall k, x | 0 <= k < |gs| ensures x in gs[k] <==> x < i + 1 && InChain(term, join, gs[k][0], x) {
      assert x in gs[k] <==> x < i && InChain(term, join, gs[k][0], x);
    }
  }

  lemma NewChain(term: seq<bool>, join: seq<bool>, i: nat, gs: seq<seq<nat>>)
    requires |join| == |term| && i < |term| && AreChains(term, join, i, gs) && term[i] && !join[i]
    ensures AreChains(term, join, i + 1, gs + [[i]])
  {
    var more := gs + [[i]];
    forall k | 0 <= k < |gs| ensures gs[k][0] < i && !InChain(term, join, gs[k][0], i) {
      assert gs[k][0] in gs[k];
    }
    forall h | IsHead(term, join, h) && h < i + 1 ensures Begins(more, h) {
      if h == i {
        assert more[|gs|][0] == i;
      } else {
        assert Begins(gs, h);
        var k :| 0 <= k < |gs| && gs[k] != [] && gs[k][0] == h;
        assert more[k][0] == h;
      }
    }
  }

  /** The last group's head is the last head, so its chain is the one that goes on. */
  lemma LastChainGoesOn(term: seq<bool>, join: seq<bool>, i: nat, gs: seq<seq<nat>>)
    requires |join| == |term| && i < |term| && AreChains(term, join, i, gs) && gs != [] && term[i] && join[i]
    ensures InChain(term, join, gs[|gs| - 1][0], i)
    ensures forall k :: 0 <= k < |gs| - 1 ==> !InChain(term, join, gs[k][0], i)
  {
    var last := |gs| - 1;
    assert gs[last][0] in gs[last];
    forall k | gs[last][0] < k <= i && term[k] ensures join[k] {
      assert !join[k] ==> IsHead(term, join, k) && Begins(gs, k);
    }
    forall k | 0 <= k < last ensures !InChain(term, join, gs[k][0], i) {
      assert gs[k][0] < gs[last][0] && IsHead(term, join, gs[last][0]) && gs[last][0] < i;
    }
  }

  lemma ExtendChain(term: seq<bool>, join: seq<bool>, i: nat, gs: seq<seq<nat>>)
    requires |join| == |term| && i < |term| && AreChains(term, join, i, gs) && gs != [] && term[i] && join[i]
    ensures AreChains(term, join, i + 1, Grown(gs, i))
  {
    var more := Grown(gs, i);
    LastChainGoesOn(term, join, i, gs);
    assert forall k :: 0 <= k < |gs| ==> more[k][0] == gs[k][0];
    forall h | IsHead(term, join, h) && h < i + 1 ensures Begins(more, h) {
      assert Begins(gs, h);
      var k :| 0 <= k < |gs| && gs[k] != [] && gs[k][0] == h;
      assert more[k][0] == h;
    }
  }

  lemma {:induction false} LastTermBefore(term: seq<bool>, i: nat) returns (p: nat)
    requires i <= |term| && exists h :: 0 <= h < i && term[h]
    ensures p < i && term[p] && forall k :: p < k < i ==> !term[k]
  {
    if term[i - 1] {
      p := i - 1;
    } else {
      p := LastTermBefore(term, i - 1);
    }
  }

  /** The head of the chain that i belongs to. */
  lemma {:induction false} HeadOf(term: seq<bool>, join: seq<bool>, i: nat) returns (h: nat)
    requires |join| == |term| && i < |term| && term[i] && Rooted(term, join)
    ensures IsHead(term, join, h) && InChain(term, join, h, i)
  {
    if !join[i] {
      h := i;
    } else {
      var p := LastTermBefore(term, i);
      h := HeadOf(term, join, p);
    }
  }

  ghost predicate Ascending(g: seq<nat>) {
    forall a, b :: 0 <= a < b < |g| ==> g[a] < g[b]
  }

  lemma OneLater(g: seq<nat>, x: nat)
    requires Ascending(g) && forall y <- g :: y < x
    ensures Ascending(g + [x])
  {
    forall a | 0 <= a < |g| ensures g[a] < x {
      assert g[a] in g;
    }
  }

  ghost predicate AllAscend(gs: seq<seq<nat>>) {
    forall k :: 0 <= k < |gs| ==> Ascending(gs[k])
  }

  lemma GrownAscends(gs: seq<seq<nat>>, i: nat)
    requires gs != [] && AllAscend(gs) && Below(gs, i)
    ensures AllAscend(Grown(gs, i))
  {
    OneLater(gs[|gs| - 1], i);
  }

  lemma NextAscends(term: seq<bool>, join: seq<bool>, i: nat, before: seq<seq<nat>>, after: seq<seq<nat>>)
    requires i < |term| && Rooted(term, join) && AllAscend(before)
    requires before == Groups(term, join, i) && after == Groups(term, join, i + 1)
    ensures AllAscend(after)
  {
    if term[i] && join[i] {
      GrownAscends(before, i);
    }
  }

  lemma {:induction false} GroupsAscend(term: seq<bool>, join: seq<bool>, n: nat)
    requires n <= |term| && Rooted(term, join)
    ensures AllAscend(Groups(term, join, n))
  {
    if n > 0 {
      GroupsAscend(term, join, n - 1);
      NextAscends(term, join, n - 1, Groups(term, join, n - 1), Groups(term, join, n));
    }
  }

  /** A group has two members exactly if an OR joins some term to another. */
  lemma SomeJoined(term: seq<bool>, join: seq<bool>)
    requires Rooted(term, join)
    ensures (exists g <- Groups(term, join, |term|) :: |g| > 1) <==> exists i :: 0 <= i < |term| && term[i] && join[i]
  {
    var gs := Groups(term, join, |term|);
    GroupsAreChains(term, join, |term|);
    if g :| g in gs && |g| > 1 {
      GroupsAscend(term, join, |term|);
      var k :| 0 <= k < |gs| && gs[k] == g;
      assert Ascending(g) && g[0] < g[1];
      assert g[1] in g && InChain(term, join, g[0], g[1]);
    } else {
      forall i | 0 <= i < |term| && term[i] ensures !join[i] {
        assert forall k :: 0 <= k < |gs| ==> gs[k] in gs;
        AloneIsHead(term, join, gs, i);
      }
    }
  }

  /** Where no group has two members, every term is a chain of its own. */
  lemma AloneIsHead(term: seq<bool>, join: seq<bool>, gs: seq<seq<nat>>, i: nat)
    requires |join| == |term| && AreChains(term, join, |term|, gs) && Rooted(term, join)
    requires i < |term| && term[i] && forall k :: 0 <= k < |gs| ==> |gs[k]| <= 1
    ensures IsHead(term, join, i) && forall j :: InChain(term, join, i, j) ==> j == i
  {
    var h := HeadOf(term, join, i);
    assert Begins(gs, h);
    var k :| 0 <= k < |gs| && gs[k] != [] && gs[k][0] == h;
    GroupIsChain(term, join, gs, k, i);
    assert gs[k] == [i];
    forall j | InChain(term, join, i, j) ensures j == i {
      GroupIsChain(term, join, gs, k, j);
    }
  }

  lemma GroupIsChain(term: seq<bool>, join: seq<bool>, gs: seq<seq<nat>>, k: nat, x: int)
    requires |join| == |term| && AreChains(term, join, |term|, gs) && k < |gs|
    ensures gs[k] != [] && (InChain(term, join, gs[k][0], x) ==> x >= 0 && x in gs[k])
  {
  }

  ghost predicate SomeHolds(g: seq<nat>, holds: int -> bool) { exists i <- g :: holds(i) }

  /** A property of some term of every chain is a property of some member of every group. */
  lemma ChainsAreGroups(term: seq<bool>, join: seq<bool>, gs: seq<seq<nat>>, holds: int -> bool)
    requires |join| == |term| && AreChains(term, join, |term|, gs)
    ensures (forall h :: IsHead(term, join, h) ==> exists i :: InChain(term, join, h, i) && holds(i)) <==>
            (forall k :: 0 <= k < |gs| ==> SomeHolds(gs[k], holds))
  {
    if forall h :: IsHead(term, join, h) ==> exists i :: InChain(term, join, h, i) && holds(i) {
      forall k | 0 <= k < |gs| ensures SomeHolds(gs[k], holds) {
        assert IsHead(term, join, gs[k][0]);
        var i :| InChain(term, join, gs[k][0], i) && holds(i);
        assert i in gs[k];
      }
    }
    if forall k :: 0 <= k < |gs| ==> SomeHolds(gs[k], holds) {
      forall h | IsHead(term, join, h) ensures exists i :: InChain(term, join, h, i) && holds(i) {
        assert Begins(gs, h);
        var k :| 0 <= k < |gs| && gs[k] != [] && gs[k][0] == h;
        assert SomeHolds(gs[k], holds);
        var i :| i in gs[k] && holds(i);
        assert InChain(term, join, h, i);
      }
    }
  }
}

module MailQuery {
  import opened Common
  import opened Dasl
  import opened Chains
  import Calendar

  /** One match of the tokenizer: an optional minus, an optional `key:`, and the text, which may
      have been quoted. */
  datatype Token = Token(minus: bool, key: Option<string>, raw: string, quoted: Option<string>)

  function ValueOf(t: Token): string {
    if t.quoted.Some? then t.quoted.value else t.raw
  }

  predicate IsWord(t: Token, word: string) {
    t.key.None? && t.quoted.None? && t.raw == word
  }

  predicate IsOperator(t: Token) {
    IsWord(t, "OR") || IsWord(t, "AND") || IsWord(t, "NOT")
  }

  /** What lies outside the compiler: letter case, trimming, reading a date, today, and when a day
      begins. */
  datatype World = World(
    low: char -> char,
    trim: string -> string,
    dayOf: string -> Option<int>,
    today: int,
    midnight: int -> int
  ) {
    /** There is a month before this one. */
    predicate Valid() { today > 31 }
  }

  /** The keywords, several of them under more than one name. */
  datatype Key =
    | AnyText | FromKey | ToKey | CcKey | SubjectKey | BodyKey
    | AttachmentKey | HasKey | IsKey | ReadKey | FlaggedKey
    | ReceivedKey | AfterKey | BeforeKey | FolderKey | Unknown

  function KeyNamed(k: string): Key {
    if k == "" || k == "all" then AnyText
    else if k == "from" then FromKey
    else if k == "to" then ToKey
    else if k == "cc" then CcKey
    else if k == "subject" then SubjectKey
    else if k == "body" then BodyKey
    else if k == "hasattachment" || k == "hasattachments" || k == "attachments" then AttachmentKey
    else if k == "has" then HasKey
    else if k == "is" then IsKey
    else if k == "isread" || k == "read" then ReadKey
    else if k == "isflagged" || k == "flagged" then FlaggedKey
    else if k == "received" || k == "date" || k == "sent" then ReceivedKey
    else if k == "after" then AfterKey
    else if k == "before" then BeforeKey
    else if k == "folder" then FolderKey
    else Unknown
  }

  /** The keyword in lower case; a term without one has the empty keyword. */
  function KeyOf(w: World, t: Token): string {
    if t.key.Some? then Lower(w.low, t.key.value) else ""
  }

  /** The values that some keywords know. */
  datatype Word = YesWord | UnreadWord | ReadWord | FlaggedWord | AttachmentWord | OtherWord

  function WordNamed(v: string): Word {
    if IsYes(v) then YesWord
    else if v == "unread" then UnreadWord
    else if v == "read" then ReadWord
    else if v == "flagged" then FlaggedWord
    else if v == "attachment" || v == "attachments" then AttachmentWord
    else OtherWord
  }

  predicate IsFolder(w: World, t: Token) { !IsOperator(t) && KeyOf(w, t) == "folder" }

  /** A term with a condition of its own. */
  predicate IsTerm(w: World, t: Token) { !IsOperator(t) && KeyOf(w, t) != "folder" }

  predicate IsDate(w: World, t: Token) {
    !IsOperator(t) && KeyOf(w, t) in {"received", "date", "sent", "after", "before"}
  }

  // ---- what a term asks ----

  predicate IsYes(v: string) { v in {"yes", "true", "1", "y", "\U{0434}\U{0430}"} }

  predicate Mentions(w: World, text: string, value: string) {
    Contains(Lower(w.low, text), Lower(w.low, value))
  }

  /** The received time lies on one of the days of the range. */
  predicate ReceivedOn(w: World, r: Calendar.Range, m: Mail) {
    && (r.lo.Some? ==> w.midnight(r.lo.value) <= m.received)
    && (r.hi.Some? ==> m.received < w.midnight(r.hi.value))
  }

  /** Which terms can be compiled, by keyword and value, both in lower case; a date must be readable. */
  predicate Understood(w: World, key: string, value: string)
    requires w.Valid()
  {
    var v := Lower(w.low, value);
    || key in {"", "all", "from", "to", "cc", "subject", "body"}
    || key in {"hasattachment", "hasattachments", "attachments", "isread", "read", "isflagged", "flagged"}
    || (key == "has" && v in {"attachment", "attachments"})
    || (key == "is" && v in {"unread", "read", "flagged"})
    || (key in {"after", "before"} && w.dayOf(value).Some?)
    || (key in {"received", "date", "sent"} && Calendar.DateRange(Lower(w.low, w.trim(value)), w.today, w.dayOf).Some?)
  }

  /** What such a term asks of a mail. */
  predicate Asks(w: World, key: string, value: string, m: Mail)
    requires w.Valid() && Understood(w, key, value)
  {
    var v := Lower(w.low, value);
    if key == "from" then Mentions(w, m.text(FromName), value) || Mentions(w, m.text(FromEmail), value)
    else if key == "to" then Mentions(w, m.text(To), value)
    else if key == "cc" then Mentions(w, m.text(Cc), value)
    else if key == "subject" then Mentions(w, m.text(Subject), value)
    else if key == "body" then Mentions(w, m.text(Body), value)
    else if key == "" || key == "all" then
      || Mentions(w, m.text(Subject), value)
      || Mentions(w, m.text(FromName), value) || Mentions(w, m.text(FromEmail), value)
      || Mentions(w, m.text(To), value) || Mentions(w, m.text(Cc), value)
      || Mentions(w, m.text(Body), value)
    else if key == "has" then m.attachment
    else if key == "is" then (if v == "unread" then !m.read else if v == "read" then m.read else m.flagged)
    else if key == "isread" || key == "read" then m.read == IsYes(v)
    else if key == "isflagged" || key == "flagged" then m.flagged == IsYes(v)
    else if key == "after" then m.received >= w.midnight(w.dayOf(value).value + 1)
    else if key == "before" then m.received < w.midnight(w.dayOf(value).value)
    else if key == "received" || key == "date" || key == "sent" then
      ReceivedOn(w, Calendar.DateRange(Lower(w.low, w.trim(value)), w.today, w.dayOf).value, m)
    else m.attachment == IsYes(v)
  }

  // ---- one term ----

  function FieldsOf(k: Key): seq<Field> {
    match k
    case AnyText => [Subject, FromName, FromEmail, To, Cc, Body]
    case FromKey => [FromName, FromEmail]
    case ToKey => [To]
    case CcKey => [Cc]
    case SubjectKey => [Subject]
    case BodyKey => [Body]
    case _ => []
  }

  function AnyLike(fields: seq<Field>, value: string): Expr {
    AnyOf(seq(|fields|, i requires 0 <= i < |fields| => Leaf(Like(fields[i], value))))
  }

  function DateBounds(w: World, k: Key, value: string): Option<Calendar.Range>
    requires w.Valid()
  {
    match k
    case AfterKey => Calendar.From(w.dayOf(value), 1)
    case BeforeKey => Calendar.Until(w.dayOf(value), 0)
    case _ => Calendar.DateRange(Lower(w.low, w.trim(value)), w.today, w.dayOf)
  }

  function ReceivedIn(w: World, r: Calendar.Range): Expr {
    AllOf((if r.lo.Some? then [Leaf(ReceivedFrom(w.midnight(r.lo.value)))] else [])
          + (if r.hi.Some? then [Leaf(ReceivedBefore(w.midnight(r.hi.value)))] else []))
  }

  /** `_term` for anything but folder:; None where it raises. */
  function Condition(w: World, t: Token): Option<Expr>
    requires w.Valid()
  {
    ConditionOf(w, KeyNamed(KeyOf(w, t)), ValueOf(t))
  }

  function ConditionOf(w: World, k: Key, value: string): Option<Expr>
    requires w.Valid()
  {
    var v := WordNamed(Lower(w.low, value));
    match k
    case AttachmentKey => Some(Leaf(AttachmentIs(v.YesWord?)))
    case HasKey => if v.AttachmentWord? then Some(Leaf(AttachmentIs(true))) else None
    case IsKey =>
      if v.UnreadWord? || v.ReadWord? then Some(Leaf(ReadIs(v.ReadWord?)))
      else if v.FlaggedWord? then Some(Leaf(FlagIs(true)))
      else None
    case ReadKey => Some(Leaf(ReadIs(v.YesWord?)))
    case FlaggedKey => Some(Leaf(FlagIs(v.YesWord?)))
    case FolderKey => None
    case Unknown => None
    case _ =>
      if k.ReceivedKey? || k.AfterKey? || k.BeforeKey? then
        match DateBounds(w, k, value)
        case Some(r) => Some(ReceivedIn(w, r))
        case None => None
      else Some(AnyLike(FieldsOf(k), value))
  }

  /** The condition written for a term says of every mail what the term asks, and one is written exactly
      for the terms that are understood. */
  lemma ConditionMeans(w: World, t: Token, m: Mail)
    requires w.Valid()
    ensures Condition(w, t).Some? <==> Understood(w, KeyOf(w, t), ValueOf(t))
    ensures Condition(w, t).Some? ==> Filled(Condition(w, t).value)
    ensures Condition(w, t).Some? ==>
              (Value(w.low, Condition(w, t).value, m) <==> Asks(w, KeyOf(w, t), ValueOf(t), m))
  {
    var key, value := KeyOf(w, t), ValueOf(t);
    if key in {"", "all", "from", "to", "cc", "subject", "body"} {
      TextMeans(w, key, value, m);
    } else if key in {"received", "date", "sent"} {
      ReceivedMeans(w, key, value, m);
    } else if key in {"after", "before"} {
      SideMeans(w, key, value, m);
    } else if key in {"has", "is"} {
      WordMeans(w, key, value, m);
    } else {
      FlagMeans(w, key, value, m);
    }
  }

  ghost predicate MeansWhatIsAsked(w: World, key: string, value: string, m: Mail)
    requires w.Valid()
  {
    match ConditionOf(w, KeyNamed(key), value)
    case None => !Understood(w, key, value)
    case Some(c) => Understood(w, key, value) && Filled(c) && (Value(w.low, c, m) <==> Asks(w, key, value, m))
  }

  lemma TextMeans(w: World, key: string, value: string, m: Mail)
    requires w.Valid() && key in {"", "all", "from", "to", "cc", "subject", "body"}
    ensures MeansWhatIsAsked(w, key, value, m)
  {
    var fields := FieldsOf(KeyNamed(key));
    LikeMeans(w, fields, value, m);
    if key == "" || key == "all" {
      assert fields[0] == Subject && fields[1] == FromName && fields[2] == FromEmail;
      assert fields[3] == To && fields[4] == Cc && fields[5] == Body;
    } else if key == "from" {
      assert fields[0] == FromName && fields[1] == FromEmail;
    } else {
      assert |fields| == 1 && Mentions(w, m.text(fields[0]), value) == Asks(w, key, value, m);
    }
  }

  lemma LikeMeans(w: World, fields: seq<Field>, value: string, m: Mail)
    requires fields != []
    ensures Filled(AnyLike(fields, value))
    ensures Value(w.low, AnyLike(fields, value), m) <==> exists i :: 0 <= i < |fields| && Mentions(w, m.text(fields[i]), value)
  {
    var es := seq(|fields|, i requires 0 <= i < |fields| => Leaf(Like(fields[i], value)));
    AllAnyMean(w.low, es, m);
    assert forall i :: 0 <= i < |fields| ==> Value(w.low, es[i], m) == Mentions(w, m.text(fields[i]), value);
  }

  lemma ReceivedMeans(w: World, key: string, value: string, m: Mail)
    requires w.Valid() && key in {"received", "date", "sent"}
    ensures MeansWhatIsAsked(w, key, value, m)
  {
    assert KeyNamed(key) == ReceivedKey;
    ReceivedAsks(w, key, value, m);
    BoundedMeans(w, ReceivedKey, value, DateBounds(w, ReceivedKey, value), m);
  }

  lemma ReceivedAsks(w: World, key: string, value: string, m: Mail)
    requires w.Valid() && key in {"received", "date", "sent"}
    ensures var bounds := DateBounds(w, ReceivedKey, value);
            && (Understood(w, key, value) <==> bounds.Some?)
            && (bounds.Some? ==> (Asks(w, key, value, m) <==> ReceivedOn(w, bounds.value, m)))
  {
  }

  lemma SideMeans(w: World, key: string, value: string, m: Mail)
    requires w.Valid() && key in {"after", "before"}
    ensures MeansWhatIsAsked(w, key, value, m)
  {
    var k := KeyNamed(key);
    assert k == if key == "after" then AfterKey else BeforeKey;
    BoundedMeans(w, k, value, DateBounds(w, k, value), m);
  }

  lemma BoundedMeans(w: World, k: Key, value: string, bounds: Option<Calendar.Range>, m: Mail)
    requires w.Valid() && (k.ReceivedKey? || k.AfterKey? || k.BeforeKey?) && bounds == DateBounds(w, k, value)
    ensures ConditionOf(w, k, value) == if bounds.Some? then Some(ReceivedIn(w, bounds.value)) else None
    ensures bounds.Some? ==> Filled(ReceivedIn(w, bounds.value))
    ensures bounds.Some? ==> (Value(w.low, ReceivedIn(w, bounds.value), m) <==> ReceivedOn(w, bounds.value, m))
  {
    if bounds.Some? {
      BoundsNotOpen(w, k, value);
      RangeMeans(w, bounds.value, m);
    }
  }

  lemma RangeMeans(w: World, r: Calendar.Range, m: Mail)
    ensures Filled(ReceivedIn(w, r)) <==> r.lo.Some? || r.hi.Some?
    ensures Value(w.low, ReceivedIn(w, r), m) <==> ReceivedOn(w, r, m)
  {
    var lo := if r.lo.Some? then [Leaf(ReceivedFrom(w.midnight(r.lo.value)))] else [];
    var hi := if r.hi.Some? then [Leaf(ReceivedBefore(w.midnight(r.hi.value)))] else [];
    AllAppend(w.low, lo, hi, m);
    AllOfOne(w.low, lo, m);
    AllOfOne(w.low, hi, m);
    FilledAppend(lo, hi);
  }

  lemma FilledAppend(a: seq<Expr>, b: seq<Expr>)
    requires (forall e <- a :: Filled(e)) && (forall e <- b :: Filled(e))
    ensures Filled(AllOf(a + b)) <==> a != [] || b != []
  {
    assert forall e <- a + b :: e in a || e in b;
    assert a != [] ==> (a + b)[0] == a[0];
  }

  lemma AllOfOne(low: char -> char, es: seq<Expr>, m: Mail)
    requires |es| <= 1
    ensures All(low, es, m) <==> (es != [] ==> Value(low, es[0], m))
  {
    if es != [] {
      assert es[1..] == [];
    }
  }

  lemma {:induction false} AllAppend(low: char -> char, a: seq<Expr>, b: seq<Expr>, m: Mail)
    ensures All(low, a + b, m) <==> All(low, a, m) && All(low, b, m)
  {
    if a == [] {
      assert a + b == b;
    } else {
      assert (a + b)[1..] == a[1..] + b;
      AllAppend(low, a[1..], b, m);
    }
  }

  lemma WordMeans(w: World, key: string, value: string, m: Mail)
    requires w.Valid() && key in {"has", "is"}
    ensures MeansWhatIsAsked(w, key, value, m)
  {
    assert KeyNamed(key) == if key == "has" then HasKey else IsKey;
    WordIs(Lower(w.low, value));
  }

  lemma WordIs(v: string)
    ensures WordNamed(v).YesWord? <==> IsYes(v)
    ensures WordNamed(v).UnreadWord? <==> v == "unread"
    ensures WordNamed(v).ReadWord? <==> v == "read"
    ensures WordNamed(v).FlaggedWord? <==> v == "flagged"
    ensures WordNamed(v).AttachmentWord? <==> v in {"attachment", "attachments"}
  {
  }

  /** The keywords with a yes or no, and the unknown ones. */
  lemma FlagMeans(w: World, key: string, value: string, m: Mail)
    requires w.Valid() && key !in {"", "all", "from", "to", "cc", "subject", "body"}
    requires key !in {"received", "date", "sent"} && key !in {"after", "before"} && key !in {"has", "is"}
    ensures MeansWhatIsAsked(w, key, value, m)
  {
    WordIs(Lower(w.low, value));
    FlagKeys(key);
  }

  lemma FlagKeys(key: string)
    requires key !in {"", "all", "from", "to", "cc", "subject", "body"}
    requires key !in {"received", "date", "sent"} && key !in {"after", "before"} && key !in {"has", "is"}
    ensures KeyNamed(key) ==
            if key in {"hasattachment", "hasattachments", "attachments"} then AttachmentKey
            else if key == "isread" || key == "read" then ReadKey
            else if key == "isflagged" || key == "flagged" then FlaggedKey
            else if key == "folder" then FolderKey
            else Unknown
  {
  }

  lemma BoundsNotOpen(w: World, k: Key, value: string)
    requires w.Valid() && DateBounds(w, k, value).Some?
    ensures DateBounds(w, k, value).value.lo.Some? || DateBounds(w, k, value).value.hi.Some?
  {
  }

  // ---- what a query means ----

  /** Only operators between p and n. */
  predicate OnlyOperators(ts: seq<Token>, p: int, n: int)
    requires n <= |ts|
  {
    forall q | 0 <= q < n :: p < q ==> IsOperator(ts[q])
  }

  ghost predicate HasTerm(w: World, ts: seq<Token>, n: int)
    requires n <= |ts|
  {
    exists h :: 0 <= h < n && IsTerm(w, ts[h])
  }

  /** A NOT stands directly before position n (other operators aside). */
  ghost predicate NotBefore(ts: seq<Token>, n: int)
    requires n <= |ts|
  {
    exists p :: 0 <= p < n && IsWord(ts[p], "NOT") && OnlyOperators(ts, p, n)
  }

  /** An OR stands directly before position n, and it has a term somewhere to its left. */
  ghost predicate OrBefore(w: World, ts: seq<Token>, n: int)
    requires n <= |ts|
  {
    exists p :: 0 <= p < n && IsWord(ts[p], "OR") && OnlyOperators(ts, p, n) && HasTerm(w, ts, p)
  }

  ghost predicate Negated(ts: seq<Token>, i: int)
    requires 0 <= i < |ts|
  {
    ts[i].minus || NotBefore(ts, i)
  }

  /** The term at i is satisfied. */
  ghost predicate TermHolds(w: World, ts: seq<Token>, i: int, m: Mail)
    requires w.Valid() && 0 <= i < |ts|
  {
    && Understood(w, KeyOf(w, ts[i]), ValueOf(ts[i]))
    && Asks(w, KeyOf(w, ts[i]), ValueOf(ts[i]), m) != Negated(ts, i)
  }

  /** Which tokens are terms, and which of these an OR joins to the term before. */
  function TermFlags(w: World, ts: seq<Token>): seq<bool> {
    seq(|ts|, i requires 0 <= i < |ts| => IsTerm(w, ts[i]))
  }

  ghost function JoinFlags(w: World, ts: seq<Token>): seq<bool> {
    seq(|ts|, i requires 0 <= i < |ts| => OrBefore(w, ts, i))
  }

  /** Every maximal OR-chain has a term that is satisfied. */
  ghost predicate Meaning(w: World, ts: seq<Token>, m: Mail)
    requires w.Valid()
  {
    forall h :: IsHead(TermFlags(w, ts), JoinFlags(w, ts), h) ==>
      exists i :: InChain(TermFlags(w, ts), JoinFlags(w, ts), h, i) && TermHolds(w, ts, i, m)
  }

  lemma JoinsAreRooted(w: World, ts: seq<Token>)
    ensures Rooted(TermFlags(w, ts), JoinFlags(w, ts))
  {
    var term := TermFlags(w, ts);
    forall i | 0 <= i < |ts| && OrBefore(w, ts, i) ensures exists h :: 0 <= h < i && term[h] {
      var p :| 0 <= p < i && IsWord(ts[p], "OR") && OnlyOperators(ts, p, i) && HasTerm(w, ts, p);
      var h :| 0 <= h < p && IsTerm(w, ts[h]);
      assert term[h];
    }
  }

  // ---- the compiler ----

  /** A term checked again on each row: the key and the lower-case text. */
  datatype Check = Check(key: string, value: string)

  datatype ParsedQuery = ParsedQuery(conditions: seq<Expr>, folders: seq<string>, hasDate: bool, verify: seq<Check>)

  /** The compiler can make something of token i. */
  ghost predicate Fine(w: World, ts: seq<Token>, i: int)
    requires w.Valid() && 0 <= i < |ts|
  {
    || IsOperator(ts[i])
    || (IsFolder(w, ts[i]) && !Negated(ts, i))
    || (IsTerm(w, ts[i]) && Understood(w, KeyOf(w, ts[i]), ValueOf(ts[i])))
  }

  /** What is written for term i. */
  ghost function Literal(w: World, ts: seq<Token>, i: int): Expr
    requires w.Valid() && 0 <= i < |ts|
  {
    match Condition(w, ts[i])
    case None => AnyOf([])
    case Some(c) => if Negated(ts, i) then Neg(AnyOf([c])) else c
  }

  ghost function Literals(w: World, ts: seq<Token>, g: seq<nat>): seq<Expr>
    requires w.Valid() && forall i <- g :: i < |ts|
  {
    seq(|g|, j requires 0 <= j < |g| => assert g[j] in g; Literal(w, ts, g[j]))
  }

  ghost predicate Written(w: World, ts: seq<Token>, gs: seq<seq<nat>>, groups: seq<seq<Expr>>)
    requires w.Valid() && Below(gs, |ts|)
  {
    |groups| == |gs| && forall k :: 0 <= k < |gs| ==> groups[k] == Literals(w, ts, gs[k])
  }

  ghost function GroupsOf(w: World, ts: seq<Token>, n: nat): (gs: seq<seq<nat>>)
    requires n <= |ts|
    ensures Below(gs, |ts|) && (gs != [] <==> HasTerm(w, ts, n))
  {
    JoinsAreRooted(w, ts);
    var gs := Groups(TermFlags(w, ts), JoinFlags(w, ts), n);
    assert forall h :: 0 <= h < n ==> TermFlags(w, ts)[h] == IsTerm(w, ts[h]);
    gs
  }

  lemma GroupsStep(w: World, ts: seq<Token>, i: nat)
    requires i < |ts|
    ensures !IsTerm(w, ts[i]) ==> GroupsOf(w, ts, i + 1) == GroupsOf(w, ts, i)
    ensures OrBefore(w, ts, i) ==> GroupsOf(w, ts, i) != []
    ensures IsTerm(w, ts[i]) && OrBefore(w, ts, i) ==> GroupsOf(w, ts, i + 1) == Grown(GroupsOf(w, ts, i), i)
    ensures IsTerm(w, ts[i]) && !OrBefore(w, ts, i) ==> GroupsOf(w, ts, i + 1) == GroupsOf(w, ts, i) + [[i]]
  {
    JoinsAreRooted(w, ts);
    assert TermFlags(w, ts)[i] == IsTerm(w, ts[i]) && JoinFlags(w, ts)[i] == OrBefore(w, ts, i);
  }

  lemma NotStep(ts: seq<Token>, i: nat)
    requires i < |ts|
    ensures NotBefore(ts, i + 1) <==> IsOperator(ts[i]) && (IsWord(ts[i], "NOT") || NotBefore(ts, i))
  {
    if NotBefore(ts, i + 1) {
      var p :| 0 <= p < i + 1 && IsWord(ts[p], "NOT") && OnlyOperators(ts, p, i + 1);
      assert p < i ==> OnlyOperators(ts, p, i);
    }
    if IsOperator(ts[i]) {
      if NotBefore(ts, i) {
        var p :| 0 <= p < i && IsWord(ts[p], "NOT") && OnlyOperators(ts, p, i);
        assert OnlyOperators(ts, p, i + 1);
      }
      assert OnlyOperators(ts, i, i + 1);
    }
  }

  lemma OrStep(w: World, ts: seq<Token>, i: nat)
    requires i < |ts|
    ensures OrBefore(w, ts, i + 1) <==>
              IsOperator(ts[i]) && if IsWord(ts[i], "OR") then HasTerm(w, ts, i) else OrBefore(w, ts, i)
  {
    if OrBefore(w, ts, i + 1) {
      OrWasBefore(w, ts, i);
    }
    if IsOperator(ts[i]) {
      if OrBefore(w, ts, i) {
        var p :| 0 <= p < i && IsWord(ts[p], "OR") && OnlyOperators(ts, p, i) && HasTerm(w, ts, p);
        assert OnlyOperators(ts, p, i + 1);
      }
      assert OnlyOperators(ts, i, i + 1);
    }
  }

  lemma OrWasBefore(w: World, ts: seq<Token>, i: nat)
    requires i < |ts| && OrBefore(w, ts, i + 1)
    ensures IsOperator(ts[i]) && if IsWord(ts[i], "OR") then HasTerm(w, ts, i) else OrBefore(w, ts, i)
  {
    var p :| 0 <= p < i + 1 && IsWord(ts[p], "OR") && OnlyOperators(ts, p, i + 1) && HasTerm(w, ts, p);
    if p < i {
      assert OnlyOperators(ts, p, i) && IsOperator(ts[i]);
      var h :| 0 <= h < p && IsTerm(w, ts[h]);
      assert HasTerm(w, ts, i);
    }
  }

  function FolderNames(w: World, ts: seq<Token>): seq<string> {
    if ts == [] then []
    else
      var t := ts[|ts| - 1];
      FolderNames(w, ts[..|ts| - 1]) + if IsFolder(w, t) then [Lower(w.low, ValueOf(t))] else []
  }

  function CheckOf(w: World, t: Token): Check {
    Check(KeyOf(w, t), Lower(w.low, ValueOf(t)))
  }

  /** Token i is a subject: or from: term, not negated, that c repeats. */
  ghost predicate Checked(w: World, ts: seq<Token>, i: int, c: Check)
    requires 0 <= i < |ts|
  {
    IsTerm(w, ts[i]) && !Negated(ts, i) && c == CheckOf(w, ts[i]) && c.key in {"subject", "from"}
  }

  /** Token i is the same term, negated. */
  ghost predicate Revoked(w: World, ts: seq<Token>, i: int, c: Check)
    requires 0 <= i < |ts|
  {
    IsTerm(w, ts[i]) && Negated(ts, i) && c == CheckOf(w, ts[i])
  }

  /** A subject: or from: term asks for the check, and no later term is its negation. */
  ghost predicate Backed(w: World, ts: seq<Token>, n: int, c: Check)
    requires n <= |ts|
  {
    exists i :: 0 <= i < n && Checked(w, ts, i, c) && forall j :: i < j < n ==> !Revoked(w, ts, j, c)
  }

  /** These are the checks. */
  ghost predicate AllBacked(w: World, ts: seq<Token>, n: int, verify: seq<Check>)
    requires n <= |ts|
  {
    forall c :: c in verify <==> Backed(w, ts, n, c)
  }

  lemma BackedStep(w: World, ts: seq<Token>, i: nat, c: Check)
    requires i < |ts|
    ensures Backed(w, ts, i + 1, c) <==> Checked(w, ts, i, c) || (Backed(w, ts, i, c) && !Revoked(w, ts, i, c))
  {
    if Backed(w, ts, i + 1, c) && !Checked(w, ts, i, c) {
      StillBacked(w, ts, i, c);
    }
    if Backed(w, ts, i, c) && !Revoked(w, ts, i, c) {
      var k :| 0 <= k < i && Checked(w, ts, k, c) && forall j :: k < j < i ==> !Revoked(w, ts, j, c);
      assert forall j :: k < j < i + 1 ==> !Revoked(w, ts, j, c);
    }
  }

  lemma StillBacked(w: World, ts: seq<Token>, i: nat, c: Check)
    requires i < |ts| && Backed(w, ts, i + 1, c) && !Checked(w, ts, i, c)
    ensures Backed(w, ts, i, c) && !Revoked(w, ts, i, c)
  {
    var k :| 0 <= k < i + 1 && Checked(w, ts, k, c) && forall j :: k < j < i + 1 ==> !Revoked(w, ts, j, c);
    assert k < i;
  }

  function Without(verify: seq<Check>, c: Check): (r: seq<Check>)
    ensures forall x :: x in r <==> x in verify && x != c
  {
    if verify == [] then []
    else
      assert verify == [verify[0]] + verify[1..];
      (if verify[0] == c then [] else [verify[0]]) + Without(verify[1..], c)
  }

  /** The condition of a group: its one literal, or the literals joined by OR. */
  function GroupCondition(g: seq<Expr>): Expr
    requires g != []
  {
    if |g| == 1 then g[0] else AnyOf(g)
  }

  /** `_row_matches` */
  predicate RowMatches(w: World, verify: seq<Check>, m: Mail) {
    forall c <- verify ::
      && (c.key == "subject" ==> Contains(Lower(w.low, m.text(Subject)), c.value))
      && (c.key == "from" ==> Contains(Lower(w.low, m.text(FromName) + " " + m.text(FromEmail)), c.value))
  }

  ghost predicate HasDate(w: World, ts: seq<Token>, n: int)
    requires n <= |ts|
  {
    exists k :: 0 <= k < n && IsDate(w, ts[k])
  }

  lemma DateStep(w: World, ts: seq<Token>, i: nat)
    requires i < |ts|
    ensures HasDate(w, ts, i + 1) <==> HasDate(w, ts, i) || IsDate(w, ts[i])
  {
  }

  /** What the compiler has built from the first i tokens. */
  ghost predicate Built(w: World, ts: seq<Token>, i: nat, groups: seq<seq<Expr>>, q: ParsedQuery)
    requires w.Valid() && i <= |ts|
  {
    && Written(w, ts, GroupsOf(w, ts, i), groups)
    && q.folders == FolderNames(w, ts[..i])
    && (q.hasDate <==> HasDate(w, ts, i))
    && AllBacked(w, ts, i, q.verify)
    && (forall k :: 0 <= k < i ==> Fine(w, ts, k))
  }

  ghost predicate Compiled(w: World, ts: seq<Token>, i: nat, groups: seq<seq<Expr>>, q: ParsedQuery, pendingOr: bool, pendingNot: bool)
    requires w.Valid() && i <= |ts|
  {
    Built(w, ts, i, groups, q) && pendingOr == OrBefore(w, ts, i) && pendingNot == NotBefore(ts, i)
  }

  /** One token of the loop. Not `ok` where the source raises. */
  method Step(w: World, ts: seq<Token>, i: nat, groups: seq<seq<Expr>>, q: ParsedQuery, pendingOr: bool, pendingNot: bool)
    returns (ok: bool, groups': seq<seq<Expr>>, q': ParsedQuery, pendingOr': bool, pendingNot': bool)
    requires w.Valid() && i < |ts| && Compiled(w, ts, i, groups, q, pendingOr, pendingNot)
    ensures ok ==> Compiled(w, ts, i + 1, groups', q', pendingOr', pendingNot')
    ensures ok <==> Fine(w, ts, i)
    ensures q'.conditions == q.conditions
  {
    var t := ts[i];
    ok, groups', q', pendingOr', pendingNot' := true, groups, q, pendingOr, pendingNot;
    if IsOperator(t) {
      OperatorStep(w, ts, i, groups, q, pendingOr, pendingNot);
      if t.raw == "OR" {
        pendingOr' := groups != [];
      } else if t.raw == "NOT" {
        pendingNot' := true;
      }
      return;
    }
    pendingNot' := false;
    pendingOr' := false;
    var negate := t.minus || pendingNot;
    if KeyOf(w, t) == "folder" {
      if negate {
        ok := false;
        return;
      }
      FolderStep(w, ts, i, groups, q, pendingOr, pendingNot);
      q' := q.(folders := q.folders + [Lower(w.low, ValueOf(t))]);
      return;
    }
    ok, groups', q' := TermStep(w, ts, i, groups, q, pendingOr, pendingNot);
  }

  lemma OperatorStep(w: World, ts: seq<Token>, i: nat, groups: seq<seq<Expr>>, q: ParsedQuery, pendingOr: bool, pendingNot: bool)
    requires w.Valid() && i < |ts| && Compiled(w, ts, i, groups, q, pendingOr, pendingNot) && IsOperator(ts[i])
    ensures Compiled(w, ts, i + 1, groups, q, if ts[i].raw == "OR" then groups != [] else pendingOr,
                     pendingNot || ts[i].raw == "NOT")
  {
    OperatorBuilt(w, ts, i, groups, q);
    OperatorFlags(w, ts, i);
    assert GroupsOf(w, ts, i) == [] <==> groups == [];
  }

  lemma OperatorBuilt(w: World, ts: seq<Token>, i: nat, groups: seq<seq<Expr>>, q: ParsedQuery)
    requires w.Valid() && i < |ts| && Built(w, ts, i, groups, q) && IsOperator(ts[i])
    ensures Built(w, ts, i + 1, groups, q)
  {
    DateStep(w, ts, i);
    GroupsStep(w, ts, i);
    FolderNamesStay(w, ts, i);
    MoreBacked(w, ts, i, q.verify);
    FineOneMore(w, ts, i);
  }

  lemma FineOneMore(w: World, ts: seq<Token>, i: nat)
    requires w.Valid() && i < |ts| && IsOperator(ts[i]) && forall k :: 0 <= k < i ==> Fine(w, ts, k)
    ensures forall k :: 0 <= k < i + 1 ==> Fine(w, ts, k)
  {
    assert Fine(w, ts, i);
  }

  lemma OperatorFlags(w: World, ts: seq<Token>, i: nat)
    requires i < |ts| && IsOperator(ts[i])
    ensures OrBefore(w, ts, i + 1) <==> if ts[i].raw == "OR" then GroupsOf(w, ts, i) != [] else OrBefore(w, ts, i)
    ensures NotBefore(ts, i + 1) <==> NotBefore(ts, i) || ts[i].raw == "NOT"
  {
    NotStep(ts, i);
    OrStep(w, ts, i);
  }

  lemma FolderNamesStay(w: World, ts: seq<Token>, i: nat)
    requires i < |ts| && !IsFolder(w, ts[i])
    ensures FolderNames(w, ts[..i + 1]) == FolderNames(w, ts[..i])
  {
    TakeOne(ts, i);
    assert FolderNames(w, ts[..i]) + [] == FolderNames(w, ts[..i]);
  }

  lemma MoreBacked(w: World, ts: seq<Token>, i: nat, verify: seq<Check>)
    requires i < |ts| && AllBacked(w, ts, i, verify) && !IsTerm(w, ts[i])
    ensures AllBacked(w, ts, i + 1, verify)
  {
    forall c ensures c in verify <==> Backed(w, ts, i + 1, c) {
      BackedStep(w, ts, i, c);
    }
  }

  lemma FolderStep(w: World, ts: seq<Token>, i: nat, groups: seq<seq<Expr>>, q: ParsedQuery, pendingOr: bool, pendingNot: bool)
    requires w.Valid() && i < |ts| && Compiled(w, ts, i, groups, q, pendingOr, pendingNot)
    requires IsFolder(w, ts[i]) && !ts[i].minus && !pendingNot
    ensures Compiled(w, ts, i + 1, groups, q.(folders := q.folders + [Lower(w.low, ValueOf(ts[i]))]), false, false)
  {
    DateStep(w, ts, i);
    NotStep(ts, i);
    OrStep(w, ts, i);
    GroupsStep(w, ts, i);
    OneFolderMore(w, ts, i);
    MoreBacked(w, ts, i, q.verify);
  }

  lemma OneFolderMore(w: World, ts: seq<Token>, i: nat)
    requires i < |ts|
    ensures FolderNames(w, ts[..i + 1]) ==
            FolderNames(w, ts[..i]) + if IsFolder(w, ts[i]) then [Lower(w.low, ValueOf(ts[i]))] else []
  {
    assert ts[..i + 1][..i] == ts[..i];
  }

  /** One term: its condition, and the group it goes to. */
  method TermStep(w: World, ts: seq<Token>, i: nat, groups: seq<seq<Expr>>, q: ParsedQuery, pendingOr: bool, pendingNot: bool)
    returns (ok: bool, groups': seq<seq<Expr>>, q': ParsedQuery)
    requires w.Valid() && i < |ts| && Compiled(w, ts, i, groups, q, pendingOr, pendingNot) && IsTerm(w, ts[i])
    ensures ok ==> Compiled(w, ts, i + 1, groups', q', false, false)
    ensures ok <==> Fine(w, ts, i)
    ensures q'.conditions == q.conditions
  {
    var t := ts[i];
    var negate := t.minus || pendingNot;
    var k, value := KeyOf(w, t), ValueOf(t);
    ok, groups', q' := true, groups, q;
    var cond := Condition(w, t);
    ConditionMeans(w, t, AnyMail());
    if cond.None? {
      ok := false;
      return;
    }
    var verify := q.verify;
    if !negate && k in {"subject", "from"} {
      verify := verify + [Check(k, Lower(w.low, value))];
    }
    var literal := cond.value;
    if negate {
      literal := Neg(AnyOf([literal]));
      verify := Without(verify, Check(k, Lower(w.low, value)));
    }
    if pendingOr && groups != [] {
      groups' := groups[|groups| - 1 := groups[|groups| - 1] + [literal]];
    } else {
      groups' := groups + [[literal]];
    }
    q' := q.(verify := verify, hasDate := q.hasDate || k in {"received", "date", "sent", "after", "before"});
    TermCompiled(w, ts, i, groups, q, pendingOr, pendingNot, literal, verify);
  }

  lemma TermCompiled(w: World, ts: seq<Token>, i: nat, groups: seq<seq<Expr>>, q: ParsedQuery, pendingOr: bool, pendingNot: bool,
                     literal: Expr, verify: seq<Check>)
    requires w.Valid() && i < |ts| && Compiled(w, ts, i, groups, q, pendingOr, pendingNot)
    requires IsTerm(w, ts[i]) && Fine(w, ts, i) && literal == Literal(w, ts, i)
    requires forall c :: c in verify <==> Checked(w, ts, i, c) || (c in q.verify && !Revoked(w, ts, i, c))
    ensures pendingOr ==> groups != []
    ensures Compiled(w, ts, i + 1,
                     if pendingOr then groups[|groups| - 1 := groups[|groups| - 1] + [literal]] else groups + [[literal]],
                     q.(verify := verify, hasDate := q.hasDate || IsDate(w, ts[i])), false, false)
  {
    TermWritten(w, ts, i, groups, literal);
    TermBacked(w, ts, i, q.verify, verify);
    DateStep(w, ts, i);
    NotStep(ts, i);
    OrStep(w, ts, i);
    FolderNamesStay(w, ts, i);
  }

  lemma TermWritten(w: World, ts: seq<Token>, i: nat, groups: seq<seq<Expr>>, literal: Expr)
    requires w.Valid() && i < |ts| && Written(w, ts, GroupsOf(w, ts, i), groups) && IsTerm(w, ts[i])
    requires literal == Literal(w, ts, i)
    ensures OrBefore(w, ts, i) ==> groups != []
    ensures Written(w, ts, GroupsOf(w, ts, i + 1),
                    if OrBefore(w, ts, i) then groups[|groups| - 1 := groups[|groups| - 1] + [literal]]
                    else groups + [[literal]])
  {
    GroupsStep(w, ts, i);
    var gs := GroupsOf(w, ts, i);
    if OrBefore(w, ts, i) {
      GrownWritten(w, ts, gs, groups, i);
    } else {
      assert Literals(w, ts, [i]) == [literal];
    }
  }

  lemma GrownWritten(w: World, ts: seq<Token>, gs: seq<seq<nat>>, groups: seq<seq<Expr>>, i: nat)
    requires w.Valid() && i < |ts| && Below(gs, |ts|) && Written(w, ts, gs, groups) && gs != []
    ensures Below(Grown(gs, i), |ts|)
    ensures Written(w, ts, Grown(gs, i), groups[|groups| - 1 := groups[|groups| - 1] + [Literal(w, ts, i)]])
  {
    var g := gs[|gs| - 1];
    assert Literals(w, ts, g + [i]) == Literals(w, ts, g) + [Literal(w, ts, i)];
  }

  lemma TermBacked(w: World, ts: seq<Token>, i: nat, verify: seq<Check>, verify': seq<Check>)
    requires i < |ts| && AllBacked(w, ts, i, verify)
    requires forall c :: c in verify' <==> Checked(w, ts, i, c) || (c in verify && !Revoked(w, ts, i, c))
    ensures AllBacked(w, ts, i + 1, verify')
  {
    forall c ensures c in verify' <==> Backed(w, ts, i + 1, c) {
      BackedStep(w, ts, i, c);
    }
  }

  function AnyMail(): Mail { Mail(f => "", false, false, false, 0) }

  // ---- what the groups mean ----

  ghost function Holding(w: World, ts: seq<Token>, m: Mail): int -> bool
    requires w.Valid()
  {
    i => 0 <= i < |ts| && TermHolds(w, ts, i, m)
  }

  lemma LiteralMeans(w: World, ts: seq<Token>, i: int, m: Mail)
    requires w.Valid() && 0 <= i < |ts| && Condition(w, ts[i]).Some?
    ensures Value(w.low, Literal(w, ts, i), m) == TermHolds(w, ts, i, m) && Filled(Literal(w, ts, i))
  {
    ConditionMeans(w, ts[i], m);
    var c := Condition(w, ts[i]).value;
    assert Any(w.low, [c], m) == (Value(w.low, c, m) || Any(w.low, [c][1..], m));
  }

  /** The condition of a group holds exactly when one of its terms does. */
  lemma GroupMeans(w: World, ts: seq<Token>, g: seq<nat>, m: Mail)
    requires w.Valid() && g != [] && forall i <- g :: i < |ts| && Condition(w, ts[i]).Some?
    ensures Filled(GroupCondition(Literals(w, ts, g)))
    ensures Value(w.low, GroupCondition(Literals(w, ts, g)), m) <==> exists i <- g :: Holding(w, ts, m)(i)
  {
    forall j | 0 <= j < |g|
      ensures Filled(Literals(w, ts, g)[j]) && Value(w.low, Literals(w, ts, g)[j], m) == Holding(w, ts, m)(g[j])
    {
      assert g[j] in g;
      LiteralMeans(w, ts, g[j], m);
    }
    SomeValue(w.low, Literals(w, ts, g), g, Holding(w, ts, m), m);
  }

  lemma SomeValue(low: char -> char, es: seq<Expr>, g: seq<nat>, holds: nat -> bool, m: Mail)
    requires |es| == |g| > 0 && forall j :: 0 <= j < |g| ==> Filled(es[j]) && Value(low, es[j], m) == holds(g[j])
    ensures Filled(GroupCondition(es))
    ensures Value(low, GroupCondition(es), m) <==> exists i <- g :: holds(i)
  {
    AllAnyMean(low, es, m);
    if j :| 0 <= j < |es| && Value(low, es[j], m) {
      assert g[j] in g;
    }
    if i :| i in g && holds(i) {
      var j :| 0 <= j < |g| && g[j] == i;
      assert Value(low, es[j], m);
    }
  }

  ghost predicate AllFine(w: World, ts: seq<Token>)
    requires w.Valid()
  {
    forall i :: 0 <= i < |ts| ==> Fine(w, ts, i)
  }

  lemma WholeGroups(w: World, ts: seq<Token>)
    ensures AreChains(TermFlags(w, ts), JoinFlags(w, ts), |ts|, GroupsOf(w, ts, |ts|))
    ensures forall g <- GroupsOf(w, ts, |ts|) :: g != [] && forall i <- g :: i < |ts| && IsTerm(w, ts[i])
  {
    JoinsAreRooted(w, ts);
    var term, join := TermFlags(w, ts), JoinFlags(w, ts);
    GroupsAreChains(term, join, |ts|);
    var gs := GroupsOf(w, ts, |ts|);
    forall k, i | 0 <= k < |gs| && i in gs[k] ensures i < |ts| && IsTerm(w, ts[i]) {
      assert InChain(term, join, gs[k][0], i) && term[i];
    }
  }

  function Conditions(groups: seq<seq<Expr>>): (cs: seq<Expr>)
    requires forall k :: 0 <= k < |groups| ==> groups[k] != []
    ensures |cs| == |groups| && forall k :: 0 <= k < |groups| ==> cs[k] == GroupCondition(groups[k])
  {
    seq(|groups|, k requires 0 <= k < |groups| => GroupCondition(groups[k]))
  }

  lemma FineGroupMeans(w: World, ts: seq<Token>, g: seq<nat>, m: Mail)
    requires w.Valid() && AllFine(w, ts) && g != [] && forall i <- g :: i < |ts| && IsTerm(w, ts[i])
    ensures Filled(GroupCondition(Literals(w, ts, g)))
    ensures Value(w.low, GroupCondition(Literals(w, ts, g)), m) <==> exists i <- g :: Holding(w, ts, m)(i)
  {
    forall i | i in g ensures Condition(w, ts[i]).Some? {
      assert Fine(w, ts, i);
      ConditionMeans(w, ts[i], m);
    }
    GroupMeans(w, ts, g, m);
  }

  /** Meaning is preserved: the conditions, all together, hold for a mail exactly when every
      OR-chain of the query has a term that is satisfied. */
  lemma ConditionsMean(w: World, ts: seq<Token>, groups: seq<seq<Expr>>, m: Mail)
    requires w.Valid() && AllFine(w, ts) && Written(w, ts, GroupsOf(w, ts, |ts|), groups)
    ensures forall k :: 0 <= k < |groups| ==> groups[k] != []
    ensures forall c <- Conditions(groups) :: Filled(c)
    ensures All(w.low, Conditions(groups), m) <==> Meaning(w, ts, m)
  {
    WholeGroups(w, ts);
    var gs := GroupsOf(w, ts, |ts|);
    forall k | 0 <= k < |gs| ensures groups[k] != [] {
      assert gs[k] in gs;
    }
    var cs := Conditions(groups);
    forall k | 0 <= k < |gs|
      ensures Filled(cs[k]) && (Value(w.low, cs[k], m) <==> SomeHolds(gs[k], Holding(w, ts, m)))
    {
      assert gs[k] in gs && groups[k] == Literals(w, ts, gs[k]);
      FineGroupMeans(w, ts, gs[k], m);
    }
    GroupsHold(w, ts, cs, gs, m);
  }

  lemma GroupsHold(w: World, ts: seq<Token>, cs: seq<Expr>, gs: seq<seq<nat>>, m: Mail)
    requires w.Valid() && AreChains(TermFlags(w, ts), JoinFlags(w, ts), |ts|, gs) && |cs| == |gs|
    requires forall k :: 0 <= k < |gs| ==> (Value(w.low, cs[k], m) <==> SomeHolds(gs[k], Holding(w, ts, m)))
    ensures All(w.low, cs, m) <==> Meaning(w, ts, m)
  {
    ChainsAreGroups(TermFlags(w, ts), JoinFlags(w, ts), gs, Holding(w, ts, m));
    AllAnyMean(w.low, cs, m);
    ChainsHold(w, ts, m);
    assert All(w.low, cs, m) <==> forall k :: 0 <= k < |gs| ==> SomeHolds(gs[k], Holding(w, ts, m));
  }

  lemma ChainsHold(w: World, ts: seq<Token>, m: Mail)
    requires w.Valid()
    ensures Meaning(w, ts, m) <==>
            forall h :: IsHead(TermFlags(w, ts), JoinFlags(w, ts), h) ==>
              exists i :: InChain(TermFlags(w, ts), JoinFlags(w, ts), h, i) && Holding(w, ts, m)(i)
  {
    forall h, i | InChain(TermFlags(w, ts), JoinFlags(w, ts), h, i) ensures Holding(w, ts, m)(i) == TermHolds(w, ts, i, m) {
    }
  }

  // ---- the check of each row ----

  lemma FoundLater(pre: string, hay: string, post: string, needle: string)
    requires Contains(hay, needle)
    ensures Contains(pre + hay + post, needle)
  {
    var i :| 0 <= i <= |hay| && FoundAt(hay, needle, i);
    assert (pre + hay + post)[|pre| + i..|pre| + i + |needle|] == hay[i..i + |needle|];
    assert FoundAt(pre + hay + post, needle, |pre| + i);
  }

  /** Of a mail that has the term, the row check keeps the row. */
  lemma TermPassesCheck(w: World, t: Token, m: Mail)
    requires w.Valid() && KeyOf(w, t) in {"subject", "from"} && Understood(w, KeyOf(w, t), ValueOf(t))
    requires Asks(w, KeyOf(w, t), ValueOf(t), m)
    ensures RowMatches(w, [CheckOf(w, t)], m)
  {
    if KeyOf(w, t) == "from" {
      EitherPart(w.low, m.text(FromName), m.text(FromEmail), Lower(w.low, ValueOf(t)));
    }
  }

  /** The row check looks at name and address together. */
  lemma EitherPart(low: char -> char, name: string, address: string, needle: string)
    requires Contains(Lower(low, name), needle) || Contains(Lower(low, address), needle)
    ensures Contains(Lower(low, name + " " + address), needle)
  {
    var a, b, c := Lower(low, name), Lower(low, " "), Lower(low, address);
    LowerAppend(low, name, " ");
    LowerAppend(low, name + " ", address);
    if Contains(a, needle) {
      FoundLater("", a, b + c, needle);
      Regroup(a, b, c);
      assert "" + a == a;
    } else {
      FoundLater(a + b, c, "", needle);
      assert a + b + c + "" == a + b + c;
    }
  }

  lemma LowerAppend(low: char -> char, a: string, b: string)
    ensures Lower(low, a + b) == Lower(low, a) + Lower(low, b)
  {
  }

  /** Where every term stands alone, the row check never drops a mail that satisfies the query. */
  lemma VerifyNeverDrops(w: World, ts: seq<Token>, groups: seq<seq<Expr>>, verify: seq<Check>, m: Mail)
    requires w.Valid() && AllFine(w, ts) && Written(w, ts, GroupsOf(w, ts, |ts|), groups)
    requires AllBacked(w, ts, |ts|, verify) && (forall g <- groups :: |g| <= 1)
    requires Meaning(w, ts, m)
    ensures RowMatches(w, verify, m)
  {
    forall c | c in verify ensures RowMatches(w, [c], m) {
      assert Backed(w, ts, |ts|, c);
      var i :| 0 <= i < |ts| && Checked(w, ts, i, c);
      AloneHolds(w, ts, groups, i, m);
      TermPassesCheck(w, ts[i], m);
    }
    forall c | c in verify
      ensures (c.key == "subject" ==> Contains(Lower(w.low, m.text(Subject)), c.value))
      ensures (c.key == "from" ==> Contains(Lower(w.low, m.text(FromName) + " " + m.text(FromEmail)), c.value))
    {
      assert RowMatches(w, [c], m) && c in [c];
    }
  }

  lemma AloneHolds(w: World, ts: seq<Token>, groups: seq<seq<Expr>>, i: nat, m: Mail)
    requires w.Valid() && Written(w, ts, GroupsOf(w, ts, |ts|), groups) && (forall g <- groups :: |g| <= 1)
    requires i < |ts| && IsTerm(w, ts[i]) && Meaning(w, ts, m)
    ensures TermHolds(w, ts, i, m)
  {
    WholeGroups(w, ts);
    JoinsAreRooted(w, ts);
    var gs := GroupsOf(w, ts, |ts|);
    forall k | 0 <= k < |gs| ensures |gs[k]| <= 1 {
      assert groups[k] in groups;
    }
    assert TermFlags(w, ts)[i];
    AloneIsHead(TermFlags(w, ts), JoinFlags(w, ts), gs, i);
  }

  method ParseQuery(w: World, ts: seq<Token>) returns (r: Option<ParsedQuery>)
    requires w.Valid()
    ensures r.Some? <==> AllFine(w, ts) && exists i :: 0 <= i < |ts| && !IsOperator(ts[i])
    ensures r.Some? ==> Faithful(w, ts, r.value) && ChecksTheRows(w, ts, r.value.verify)
    ensures r.Some? ==> Selected(r.value.folders, ts, AsksFolder(w), NamesFolder(w))
    ensures r.Some? ==> (r.value.hasDate <==> HasDate(w, ts, |ts|))
  {
    SomethingAsked(w, ts);
    FoldersAreNamed(w, ts);
    var ok, groups, q := Compile(w, ts);
    if !ok {
      return None;
    }
    q := Finish(w, ts, groups, q);
    if q.conditions == [] && q.folders == [] {
      return None;
    }
    return Some(q);
  }

  /** The loop over the tokens. */
  method Compile(w: World, ts: seq<Token>) returns (ok: bool, groups: seq<seq<Expr>>, q: ParsedQuery)
    requires w.Valid()
    ensures ok <==> AllFine(w, ts)
    ensures ok ==> Written(w, ts, GroupsOf(w, ts, |ts|), groups) && AllBacked(w, ts, |ts|, q.verify)
    ensures ok ==> q.folders == FolderNames(w, ts) && (q.hasDate <==> HasDate(w, ts, |ts|))
  {
    q, groups := ParsedQuery([], [], false, []), [];
    var pendingOr, pendingNot := false, false;
    var i := 0;
    assert ts[..0] == [];
    while i < |ts|
      invariant 0 <= i <= |ts|
      invariant Compiled(w, ts, i, groups, q, pendingOr, pendingNot)
    {
      ok, groups, q, pendingOr, pendingNot := Step(w, ts, i, groups, q, pendingOr, pendingNot);
      if !ok {
        return;
      }
      i := i + 1;
    }
    ok := true;
    WholeCompiled(w, ts, groups, q, pendingOr, pendingNot);
  }

  lemma WholeCompiled(w: World, ts: seq<Token>, groups: seq<seq<Expr>>, q: ParsedQuery, pendingOr: bool, pendingNot: bool)
    requires w.Valid() && Compiled(w, ts, |ts|, groups, q, pendingOr, pendingNot)
    ensures AllFine(w, ts) && q.folders == FolderNames(w, ts)
  {
    assert ts[..|ts|] == ts;
  }

  /** The compiled query says of every mail what the query means, and its row check agrees. */
  ghost predicate Faithful(w: World, ts: seq<Token>, q: ParsedQuery)
    requires w.Valid()
  {
    && (forall c <- q.conditions :: Filled(c))
    && (forall m :: All(w.low, q.conditions, m) <==> Meaning(w, ts, m))
    && (forall m :: Meaning(w, ts, m) ==> RowMatches(w, q.verify, m))
  }

  /** The checks are those of the subject: and from: terms that are not negated, nor repeated with a
      negation further on; there are none if an OR joins any terms. */
  ghost predicate ChecksTheRows(w: World, ts: seq<Token>, verify: seq<Check>) {
    if exists i :: 0 <= i < |ts| && IsTerm(w, ts[i]) && OrBefore(w, ts, i) then verify == [] else AllBacked(w, ts, |ts|, verify)
  }

  lemma LongGroups(w: World, ts: seq<Token>, groups: seq<seq<Expr>>)
    requires w.Valid() && Written(w, ts, GroupsOf(w, ts, |ts|), groups)
    ensures (exists g <- groups :: |g| > 1) <==> exists i :: 0 <= i < |ts| && IsTerm(w, ts[i]) && OrBefore(w, ts, i)
  {
    var term, join, gs := TermFlags(w, ts), JoinFlags(w, ts), GroupsOf(w, ts, |ts|);
    JoinsAreRooted(w, ts);
    SomeJoined(term, join);
    assert forall i :: 0 <= i < |ts| ==> term[i] == IsTerm(w, ts[i]) && join[i] == OrBefore(w, ts, i);
    SameLengths(gs, groups);
  }

  lemma SameLengths<S, T>(a: seq<seq<S>>, b: seq<seq<T>>)
    requires |a| == |b| && forall k :: 0 <= k < |a| ==> |a[k]| == |b[k]|
    ensures (exists g <- a :: |g| > 1) <==> exists g <- b :: |g| > 1
  {
    if g :| g in a && |g| > 1 {
      var k :| 0 <= k < |a| && a[k] == g;
      assert b[k] in b;
    }
    if g :| g in b && |g| > 1 {
      var k :| 0 <= k < |b| && b[k] == g;
      assert a[k] in a;
    }
  }

  /** The groups become conditions; an OR makes the row check pointless. */
  method Finish(w: World, ts: seq<Token>, groups: seq<seq<Expr>>, q0: ParsedQuery) returns (q: ParsedQuery)
    requires w.Valid() && AllFine(w, ts) && Written(w, ts, GroupsOf(w, ts, |ts|), groups) && AllBacked(w, ts, |ts|, q0.verify)
    ensures Faithful(w, ts, q) && ChecksTheRows(w, ts, q.verify)
    ensures q.folders == q0.folders && q.hasDate == q0.hasDate
    ensures q.conditions != [] <==> HasTerm(w, ts, |ts|)
  {
    ConditionsAreFaithful(w, ts, groups);
    RowChecks(w, ts, groups, q0.verify);
    q := q0.(conditions := Conditions(groups));
    if exists g <- groups :: |g| > 1 {
      q := q.(verify := []);
    }
  }

  lemma RowChecks(w: World, ts: seq<Token>, groups: seq<seq<Expr>>, checks: seq<Check>)
    requires w.Valid() && AllFine(w, ts) && Written(w, ts, GroupsOf(w, ts, |ts|), groups) && AllBacked(w, ts, |ts|, checks)
    ensures var verify := if exists g <- groups :: |g| > 1 then [] else checks;
            ChecksTheRows(w, ts, verify) && forall m :: Meaning(w, ts, m) ==> RowMatches(w, verify, m)
  {
    LongGroups(w, ts, groups);
    if forall g <- groups :: |g| <= 1 {
      VerifyIsFaithful(w, ts, groups, checks);
    }
  }

  lemma ConditionsAreFaithful(w: World, ts: seq<Token>, groups: seq<seq<Expr>>)
    requires w.Valid() && AllFine(w, ts) && Written(w, ts, GroupsOf(w, ts, |ts|), groups)
    ensures forall c <- Conditions(groups) :: Filled(c)
    ensures forall m :: All(w.low, Conditions(groups), m) <==> Meaning(w, ts, m)
    ensures Conditions(groups) != [] <==> HasTerm(w, ts, |ts|)
  {
    forall m: Mail ensures All(w.low, Conditions(groups), m) <==> Meaning(w, ts, m) {
      ConditionsMean(w, ts, groups, m);
    }
    ConditionsMean(w, ts, groups, AnyMail());
  }

  lemma VerifyIsFaithful(w: World, ts: seq<Token>, groups: seq<seq<Expr>>, checks: seq<Check>)
    requires w.Valid() && AllFine(w, ts) && Written(w, ts, GroupsOf(w, ts, |ts|), groups) && AllBacked(w, ts, |ts|, checks)
    requires forall g <- groups :: |g| <= 1
    ensures forall m :: Meaning(w, ts, m) ==> RowMatches(w, checks, m)
  {
    forall m: Mail | Meaning(w, ts, m) ensures RowMatches(w, checks, m) {
      VerifyNeverDrops(w, ts, groups, checks, m);
    }
  }

  function AsksFolder(w: World): Token -> bool { (t: Token) => IsFolder(w, t) }

  function NamesFolder(w: World): (Token, string) -> bool {
    (t: Token, name: string) => name == Lower(w.low, if t.quoted.Some? then t.quoted.value else t.raw)
  }

  /** The folders are those of the folder: tokens, in order and in lower case. */
  lemma {:induction false} FoldersAreNamed(w: World, ts: seq<Token>)
    ensures Selected(FolderNames(w, ts), ts, AsksFolder(w), NamesFolder(w))
  {
    if ts == [] {
      SelectedNone(AsksFolder(w), NamesFolder(w));
    } else {
      var before, t := ts[..|ts| - 1], ts[|ts| - 1];
      assert ts == before + [t];
      FoldersAreNamed(w, before);
      SelectedOneMore(FolderNames(w, before), before, t, if IsFolder(w, t) then [Lower(w.low, ValueOf(t))] else [],
                      AsksFolder(w), NamesFolder(w));
    }
  }

  lemma {:induction false} FoldersAsked(w: World, ts: seq<Token>)
    ensures FolderNames(w, ts) != [] <==> exists i :: 0 <= i < |ts| && IsFolder(w, ts[i])
  {
    if ts == [] {
    } else {
      var before := ts[..|ts| - 1];
      FoldersAsked(w, before);
      assert forall i :: 0 <= i < |before| ==> before[i] == ts[i];
      if i :| 0 <= i < |before| && IsFolder(w, before[i]) {
        assert IsFolder(w, ts[i]);
      }
    }
  }

  lemma SomethingAsked(w: World, ts: seq<Token>)
    ensures (exists i :: 0 <= i < |ts| && !IsOperator(ts[i])) <==> HasTerm(w, ts, |ts|) || FolderNames(w, ts) != []
  {
    FoldersAsked(w, ts);
    if i :| 0 <= i < |ts| && !IsOperator(ts[i]) {
      assert IsTerm(w, ts[i]) || IsFolder(w, ts[i]);
    }
  }

  // ---- when OR joins its two neighbours ----

  /** An OR stands between the term at i and the term before it, nothing but operators besides. */
  ghost predicate OrNeighbours(w: World, ts: seq<Token>, i: int)
    requires i <= |ts|
  {
    exists h, p :: 0 <= h < p < i && IsTerm(w, ts[h]) && IsWord(ts[p], "OR") && OnlyOperators(ts, h, p) && OnlyOperators(ts, p, i)
  }

  /** The OR directly before i comes right after a folder:, with a term somewhere further left. */
  ghost predicate OrAfterFolder(w: World, ts: seq<Token>, i: int)
    requires i <= |ts|
  {
    exists g, p :: 0 <= g < p < i && IsFolder(w, ts[g]) && IsWord(ts[p], "OR") && OnlyOperators(ts, g, p) && OnlyOperators(ts, p, i)
      && HasTerm(w, ts, g)
  }

  lemma {:induction false} LastNonOperator(ts: seq<Token>, n: nat) returns (g: nat)
    requires n <= |ts| && exists h :: 0 <= h < n && !IsOperator(ts[h])
    ensures g < n && !IsOperator(ts[g]) && OnlyOperators(ts, g, n)
  {
    if !IsOperator(ts[n - 1]) {
      g := n - 1;
    } else {
      g := LastNonOperator(ts, n - 1);
      assert forall q | 0 <= q < n :: g < q ==> q == n - 1 || IsOperator(ts[q]);
    }
  }

  /** The compiler's OR joins neighbours, and besides exactly the terms around a folder: before it. */
  lemma OrJoins(w: World, ts: seq<Token>, i: nat)
    requires i <= |ts|
    ensures OrNeighbours(w, ts, i) ==> OrBefore(w, ts, i)
    ensures OrBefore(w, ts, i) && !OrNeighbours(w, ts, i) <==> OrAfterFolder(w, ts, i)
  {
    if h, p :| 0 <= h < p < i && IsTerm(w, ts[h]) && IsWord(ts[p], "OR") && OnlyOperators(ts, h, p) && OnlyOperators(ts, p, i) {
      assert HasTerm(w, ts, p);
    }
    if OrBefore(w, ts, i) {
      var p :| 0 <= p < i && IsWord(ts[p], "OR") && OnlyOperators(ts, p, i) && HasTerm(w, ts, p);
      OrComesAfter(w, ts, i, p);
    }
    if OrAfterFolder(w, ts, i) {
      FolderIsBetween(w, ts, i);
    }
  }

  lemma OrComesAfter(w: World, ts: seq<Token>, i: nat, p: nat)
    requires p < i <= |ts| && IsWord(ts[p], "OR") && OnlyOperators(ts, p, i) && HasTerm(w, ts, p)
    ensures OrNeighbours(w, ts, i) || OrAfterFolder(w, ts, i)
  {
    var h :| 0 <= h < p && IsTerm(w, ts[h]);
    var g := LastNonOperator(ts, p);
    if !IsTerm(w, ts[g]) {
      assert IsFolder(w, ts[g]) && h < g && HasTerm(w, ts, g);
    }
  }

  lemma FolderIsBetween(w: World, ts: seq<Token>, i: nat)
    requires i <= |ts| && OrAfterFolder(w, ts, i)
    ensures OrBefore(w, ts, i) && !OrNeighbours(w, ts, i)
  {
    var g, p :| 0 <= g < p < i && IsFolder(w, ts[g]) && IsWord(ts[p], "OR") && OnlyOperators(ts, g, p) && OnlyOperators(ts, p, i)
                && HasTerm(w, ts, g);
    var h :| 0 <= h < g && IsTerm(w, ts[h]);
    assert HasTerm(w, ts, p);
    if OrNeighbours(w, ts, i) {
      var t, q :| 0 <= t < q < i && IsTerm(w, ts[t]) && IsWord(ts[q], "OR") && OnlyOperators(ts, t, q) && OnlyOperators(ts, q, i);
      FolderSeparates(w, ts, g, p, t, q, i);
    }
  }

  /** A folder token before the last OR is between that OR and every term before it. */
  lemma FolderSeparates(w: World, ts: seq<Token>, g: nat, p: nat, t: nat, q: nat, i: nat)
    requires g < p < i <= |ts| && t < q < i && IsFolder(w, ts[g]) && IsTerm(w, ts[t])
    requires IsOperator(ts[p]) && IsOperator(ts[q]) && OnlyOperators(ts, g, p) && OnlyOperators(ts, p, i)
    ensures !(OnlyOperators(ts, t, q) && OnlyOperators(ts, q, i))
  {
    assert !IsOperator(ts[g]) && !IsOperator(ts[t]) && t != g && t != p && g != q;
    assert !(g < t < p) && !(p < t);
  }

  ghost function NeighbourFlags(w: World, ts: seq<Token>): seq<bool> {
    seq(|ts|, i requires 0 <= i < |ts| => OrNeighbours(w, ts, i))
  }

  /** The documented reading: OR joins its two neighbours. */
  ghost predicate NeighbourMeaning(w: World, ts: seq<Token>, m: Mail)
    requires w.Valid()
  {
    forall h :: IsHead(TermFlags(w, ts), NeighbourFlags(w, ts), h) ==>
      exists i :: InChain(TermFlags(w, ts), NeighbourFlags(w, ts), h, i) && TermHolds(w, ts, i, m)
  }

  ghost predicate NoOrAfterFolder(w: World, ts: seq<Token>) {
    forall i :: 0 <= i < |ts| && IsTerm(w, ts[i]) ==> !OrAfterFolder(w, ts, i)
  }

  /** Exactly then the OR-chains of the compiler are those of the documented reading. */
  lemma ChainsAreNeighbours(w: World, ts: seq<Token>)
    ensures NoOrAfterFolder(w, ts) <==>
            && (forall h :: IsHead(TermFlags(w, ts), JoinFlags(w, ts), h) == IsHead(TermFlags(w, ts), NeighbourFlags(w, ts), h))
            && (forall h, i :: InChain(TermFlags(w, ts), JoinFlags(w, ts), h, i) == InChain(TermFlags(w, ts), NeighbourFlags(w, ts), h, i))
  {
    var term, join, near := TermFlags(w, ts), JoinFlags(w, ts), NeighbourFlags(w, ts);
    forall i | 0 <= i < |ts| ensures (join[i] && !near[i] <==> OrAfterFolder(w, ts, i)) && (near[i] ==> join[i]) {
      OrJoins(w, ts, i);
    }
    if NoOrAfterFolder(w, ts) {
      assert forall i :: 0 <= i < |ts| && term[i] ==> join[i] == near[i];
      SameChains(term, join, near);
    } else {
      var i :| 0 <= i < |ts| && IsTerm(w, ts[i]) && OrAfterFolder(w, ts, i);
      assert term[i] && join[i] && !near[i];
      assert IsHead(term, near, i) && !IsHead(term, join, i);
    }
  }

  lemma SameChains(term: seq<bool>, a: seq<bool>, b: seq<bool>)
    requires |a| == |b| == |term| && forall i :: 0 <= i < |term| && term[i] ==> a[i] == b[i]
    ensures forall h :: IsHead(term, a, h) == IsHead(term, b, h)
    ensures forall h, i :: InChain(term, a, h, i) == InChain(term, b, h, i)
  {
  }

  /** Where no OR comes right after a folder:, a query means what the documentation says. */
  lemma NeighboursMean(w: World, ts: seq<Token>, m: Mail)
    requires w.Valid() && NoOrAfterFolder(w, ts)
    ensures Meaning(w, ts, m) <==> NeighbourMeaning(w, ts, m)
  {
    ChainsAreNeighbours(w, ts);
  }

  /** Everywhere else an OR joins a term to one beyond the folder: that is its neighbour. */
  lemma OrReachesOverFolder(w: World, ts: seq<Token>, i: nat) returns (h: nat)
    requires i < |ts| && IsTerm(w, ts[i]) && OrAfterFolder(w, ts, i)
    ensures h < i && IsTerm(w, ts[h]) && InChain(TermFlags(w, ts), JoinFlags(w, ts), h, i)
    ensures !InChain(TermFlags(w, ts), NeighbourFlags(w, ts), h, i)
  {
    var term, join, near := TermFlags(w, ts), JoinFlags(w, ts), NeighbourFlags(w, ts);
    OrJoins(w, ts, i);
    JoinsAreRooted(w, ts);
    h := HeadOf(term, join, i);
    assert term[i] && join[i] && !near[i];
  }

  /** The shortest such query, `a folder:x OR b`: it means a or b, where the documentation has a and b. */
  lemma AcrossFolder(w: World, ts: seq<Token>, m: Mail)
    requires w.Valid() && |ts| == 4
    requires IsTerm(w, ts[0]) && IsFolder(w, ts[1]) && IsWord(ts[2], "OR") && IsTerm(w, ts[3])
    ensures Meaning(w, ts, m) <==> TermHolds(w, ts, 0, m) || TermHolds(w, ts, 3, m)
    ensures NeighbourMeaning(w, ts, m) <==> TermHolds(w, ts, 0, m) && TermHolds(w, ts, 3, m)
  {
    var term, join, near := TermFlags(w, ts), JoinFlags(w, ts), NeighbourFlags(w, ts);
    assert term[0] && !term[1] && !term[2] && term[3] && !join[0] && !near[0];
    assert OrAfterFolder(w, ts, 3) by {
      assert HasTerm(w, ts, 1) && OnlyOperators(ts, 1, 2) && OnlyOperators(ts, 2, 3);
    }
    OrJoins(w, ts, 3);
    assert join[3] && !near[3];
    PairMeans(w, ts, term, join, 0, 3, m);
    PairMeans(w, ts, term, near, 0, 3, m);
  }

  /** Two terms, one chain or two. */
  lemma PairMeans(w: World, ts: seq<Token>, term: seq<bool>, join: seq<bool>, a: nat, b: nat, m: Mail)
    requires w.Valid() && |ts| == |term| == |join| && a <= b < |ts| && term[a] && term[b] && !join[a]
    requires forall i :: 0 <= i < |term| && term[i] ==> i == a || i == b
    ensures (forall h :: IsHead(term, join, h) ==> exists i :: InChain(term, join, h, i) && TermHolds(w, ts, i, m)) <==>
            if join[b] then TermHolds(w, ts, a, m) || TermHolds(w, ts, b, m) else TermHolds(w, ts, a, m) && TermHolds(w, ts, b, m)
  {
    assert IsHead(term, join, a) && InChain(term, join, a, a);
    assert forall i :: InChain(term, join, a, i) ==> i == a || i == b;
    if join[b] {
      assert InChain(term, join, a, b);
    } else {
      assert IsHead(term, join, b) && InChain(term, join, b, b);
      assert forall i :: InChain(term, join, b, i) ==> i == b;
      assert InChain(term, join, a, b) ==> a == b;
    }
  }

  // ---- short queries ----

  function Operator(word: string): Token { Token(false, None, word, None) }

  /** A term is satisfied, its minus taken into account. */
  ghost predicate Satisfied(w: World, t: Token, m: Mail)
    requires w.Valid()
  {
    && Understood(w, KeyOf(w, t), ValueOf(t))
    && Asks(w, KeyOf(w, t), ValueOf(t), m) != t.minus
  }

  /** Terms side by side must both be satisfied, AND between them adds nothing, and of two terms with
      OR between them one is enough. */
  lemma ShortQueries(w: World, a: Token, b: Token, m: Mail)
    requires w.Valid() && IsTerm(w, a) && IsTerm(w, b)
    ensures Meaning(w, [a], m) <==> Satisfied(w, a, m)
    ensures Meaning(w, [a, b], m) <==> Satisfied(w, a, m) && Satisfied(w, b, m)
    ensures Meaning(w, [a, Operator("AND"), b], m) <==> Satisfied(w, a, m) && Satisfied(w, b, m)
    ensures Meaning(w, [a, Operator("OR"), b], m) <==> Satisfied(w, a, m) || Satisfied(w, b, m)
  {
    PairQuery(w, [a], 0, m);
    PairQuery(w, [a, b], 1, m);
    PairQuery(w, [a, Operator("AND"), b], 2, m);
    PairQuery(w, [a, Operator("OR"), b], 2, m);
    assert HasTerm(w, [a, Operator("OR"), b], 1) && IsWord([a, Operator("OR"), b][1], "OR");
    assert OrBefore(w, [a, Operator("OR"), b], 2);
  }

  /** A term at the front and one at the end, with an operator between them at most. */
  lemma PairQuery(w: World, ts: seq<Token>, b: nat, m: Mail)
    requires w.Valid() && |ts| == b + 1 && IsTerm(w, ts[0]) && IsTerm(w, ts[b])
    requires forall i :: 0 < i < b ==> IsOperator(ts[i]) && !IsWord(ts[i], "NOT")
    ensures Meaning(w, ts, m) <==>
            if OrBefore(w, ts, b) then Satisfied(w, ts[0], m) || Satisfied(w, ts[b], m)
            else Satisfied(w, ts[0], m) && Satisfied(w, ts[b], m)
  {
    PairMeans(w, ts, TermFlags(w, ts), JoinFlags(w, ts), 0, b, m);
    assert !NotBefore(ts, 0) && !NotBefore(ts, b);
  }

  /** NOT before a term asks for the opposite. */
  lemma NotQuery(w: World, a: Token, m: Mail)
    requires w.Valid() && IsTerm(w, a) && Understood(w, KeyOf(w, a), ValueOf(a))
    ensures Meaning(w, [Operator("NOT"), a], m) <==> !Asks(w, KeyOf(w, a), ValueOf(a), m)
  {
    var ts := [Operator("NOT"), a];
    assert IsWord(ts[0], "NOT") && OnlyOperators(ts, 0, 1);
    assert NotBefore(ts, 1);
    PairMeans(w, ts, TermFlags(w, ts), JoinFlags(w, ts), 1, 1, m);
  }

  /** The text sent to the store - the conditions joined by AND - is read back by it as the meaning
      of the query. */
  lemma TextMeansQuery(w: World, ts: seq<Token>, q: ParsedQuery, m: Mail)
    requires w.Valid() && Faithful(w, ts, q) && q.conditions != []
    ensures ReadOr(w.low, Joined(q.conditions, And), m) == Some((Meaning(w, ts, m), []))
  {
    ConjunctionReads(w.low, q.conditions, m, []);
    assert Joined(q.conditions, And) + [] == Joined(q.conditions, And);
    assert All(w.low, q.conditions, m) <==> Meaning(w, ts, m);
  }
}
