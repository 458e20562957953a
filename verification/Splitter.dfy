/** The hand-written comma splitter behind list-valued settings. A comma is one byte in UTF-8, so
    splitting bytes and splitting characters agree. */
module Splitter {
  predicate NoComma(s: string, from: nat, to: nat)
    requires to <= |s|
  {
    forall k :: from <= k < to ==> s[k] != ','
  }

  /** The position of the first comma at or after `at`, or the length. */
  function NextComma(s: string, at: nat): (k: nat)
    requires at <= |s|
    ensures at <= k <= |s|
    decreases |s| - at
  {
    if at == |s| || s[at] == ',' then at else NextComma(s, at + 1)
  }

  lemma {:induction false} NextCommaStops(s: string, at: nat)
    requires at <= |s|
    ensures var k := NextComma(s, at); NoComma(s, at, k) && (k < |s| ==> s[k] == ',')
    decreases |s| - at
  {
    if at < |s| && s[at] != ',' {
      NextCommaStops(s, at + 1);
    }
  }

  /** The pieces between commas from `at` on; a trailing empty piece is dropped. */
  function Pieces(s: string, at: nat): seq<string>
    requires at <= |s|
    decreases |s| - at
  {
    var k := NextComma(s, at);
    if at == |s| then [] else if k == |s| then [s[at..k]] else [s[at..k]] + Pieces(s, k + 1)
  }

  function NonEmpty(pieces: seq<string>): seq<string>
  {
    if pieces == [] then []
    else if pieces[0] != "" then [pieces[0]] + NonEmpty(pieces[1..]) else NonEmpty(pieces[1..])
  }

  /** What `splitCSV` returns. */
  function Csv(s: string): seq<string>
  {
    NonEmpty(Pieces(s, 0))
  }

  /** The piece that ends at a comma moves from what is left to what was found. */
  lemma MovePiece(s: string, start: nat, i: nat, found: seq<string>)
    requires start <= i < |s| && NoComma(s, start, i) && s[i] == ','
    ensures (found + [s[start..i]]) + Pieces(s, i + 1) == found + Pieces(s, start)
  {
    NextCommaIs(s, start, i);
    Regrouped(found, s[start..i], Pieces(s, i + 1));
  }

  lemma Regrouped(xs: seq<string>, x: string, ys: seq<string>)
    ensures (xs + [x]) + ys == xs + ([x] + ys)
  {
  }

  method Split(s: string) returns (result: seq<string>)
    ensures result == Pieces(s, 0)
  {
    result := [];
    var start, i := 0, 0;
    while i < |s|
      invariant start <= i <= |s| && NoComma(s, start, i)
      invariant result + Pieces(s, start) == Pieces(s, 0)
    {
      if s[i] == ',' {
        MovePiece(s, start, i, result);
        result := result + [s[start..i]];
        start := i + 1;
      }
      i := i + 1;
    }
    if start < |s| {
      NextCommaIs(s, start, i);
      assert s[start..i] == s[start..] && Pieces(s, start) == [s[start..i]];
      result := result + [s[start..]];
    }
  }

  method SplitCsv(s: string) returns (parts: seq<string>)
    ensures parts == Csv(s)
  {
    var pieces := Split(s);
    parts := [];
    for k := 0 to |pieces|
      invariant parts + NonEmpty(pieces[k..]) == NonEmpty(pieces)
    {
      assert pieces[k..][1..] == pieces[k + 1..];
      if pieces[k] != "" {
        parts := parts + [pieces[k]];
      }
    }
  }

  lemma {:induction false} NextCommaIs(s: string, at: nat, k: nat)
    requires at <= k <= |s| && NoComma(s, at, k) && (k < |s| ==> s[k] == ',')
    ensures NextComma(s, at) == k
    decreases k - at
  {
    if at < k {
      NextCommaIs(s, at + 1, k);
    }
  }

  // ----- rejoining -----

  function Join(pieces: seq<string>): string
  {
    if pieces == [] then "" else if |pieces| == 1 then pieces[0] else pieces[0] + "," + Join(pieces[1..])
  }

  predicate CommaFree(s: string)
  {
    NoComma(s, 0, |s|)
  }

  /** The string, minus its last comma when it ends in one. */
  function TrimLastComma(s: string): string
  {
    if s != "" && s[|s| - 1] == ',' then s[..|s| - 1] else s
  }

  lemma JoinCons(p: string, rest: seq<string>)
    ensures Join([p] + rest) == if rest == [] then p else p + "," + Join(rest)
  {
    assert ([p] + rest)[1..] == rest;
  }

  lemma TrimCons(p: string, rest: string)
    ensures TrimLastComma(p + "," + rest) == if rest == "" then p else p + "," + TrimLastComma(rest)
  {
    var s := p + "," + rest;
    if rest == "" {
      assert s[..|s| - 1] == p;
    } else if rest[|rest| - 1] == ',' {
      assert s[..|s| - 1] == p + "," + rest[..|rest| - 1];
    }
  }

  /** The suffix from `at`, cut at its first comma. */
  lemma Cut(s: string, at: nat)
    requires at < |s|
    ensures var k := NextComma(s, at);
      if k < |s| then s[at..] == s[at..k] + "," + s[k + 1..]
      else s[at..] == s[at..k] == TrimLastComma(s[at..])
  {
    var k := NextComma(s, at);
    NextCommaStops(s, at);
    if k == |s| {
      assert s[at..][|s| - at - 1] == s[|s| - 1] != ',';
    }
  }

  /** `pieces` rejoin to `text`, and are none only when `text` is empty. */
  predicate Rejoins(pieces: seq<string>, text: string)
  {
    Join(pieces) == TrimLastComma(text) && (pieces == [] <==> text == "")
  }

  lemma LastRejoins(p: string)
    requires p != "" && TrimLastComma(p) == p
    ensures Rejoins([p], p)
  {
  }

  lemma ConsRejoins(p: string, rest: seq<string>, tail: string)
    requires Rejoins(rest, tail)
    ensures Rejoins([p] + rest, p + "," + tail)
  {
    JoinCons(p, rest);
    TrimCons(p, tail);
  }

  lemma JoinMore(s: string, at: nat)
    requires at < |s| && NextComma(s, at) < |s|
    requires Rejoins(Pieces(s, NextComma(s, at) + 1), s[NextComma(s, at) + 1..])
    ensures Rejoins(Pieces(s, at), s[at..])
  {
    var k := NextComma(s, at);
    Cut(s, at);
    ConsRejoins(s[at..k], Pieces(s, k + 1), s[k + 1..]);
  }

  lemma JoinLast(s: string, at: nat)
    requires at < |s| && NextComma(s, at) == |s|
    ensures Rejoins(Pieces(s, at), s[at..])
  {
    Cut(s, at);
    LastRejoins(s[at..|s|]);
  }

  lemma {:induction false} JoinFrom(s: string, at: nat)
    requires at <= |s|
    ensures Rejoins(Pieces(s, at), s[at..])
    decreases |s| - at
  {
    if at < |s| {
      if NextComma(s, at) < |s| {
        JoinFrom(s, NextComma(s, at) + 1);
        JoinMore(s, at);
      } else {
        JoinLast(s, at);
      }
    }
  }

  lemma {:induction false} PiecesCommaFree(s: string, at: nat)
    requires at <= |s|
    ensures forall k :: 0 <= k < |Pieces(s, at)| ==> CommaFree(Pieces(s, at)[k])
    decreases |s| - at
  {
    var k := NextComma(s, at);
    NextCommaStops(s, at);
    if k < |s| {
      PiecesCommaFree(s, k + 1);
    }
  }

  /** Rejoining what `split` returns gives the string back, minus its last comma when it ends in
      one, and no piece holds a comma. */
  lemma SplitThenJoin(s: string)
    ensures Join(Pieces(s, 0)) == TrimLastComma(s)
    ensures forall k :: 0 <= k < |Pieces(s, 0)| ==> CommaFree(Pieces(s, 0)[k])
  {
    assert s[0..] == s;
    JoinFrom(s, 0);
    PiecesCommaFree(s, 0);
  }

  /** What a comma-separated list can carry: no empty part, and no part with a comma. */
  predicate Parts(list: seq<string>)
  {
    forall k :: 0 <= k < |list| ==> list[k] != "" && CommaFree(list[k])
  }

  lemma PieceAfter(prefix: string, p: string, tail: string)
    requires CommaFree(p) && (tail != "" ==> tail[0] == ',')
    ensures var s := prefix + p + tail;
      NextComma(s, |prefix|) == |prefix| + |p| && s[|prefix|..|prefix| + |p|] == p
  {
    var s := prefix + p + tail;
    assert forall k :: |prefix| <= k < |prefix| + |p| ==> s[k] == p[k - |prefix|];
    NextCommaIs(s, |prefix|, |prefix| + |p|);
  }

  lemma RegroupTail(prefix: string, p: string, rest: string)
    ensures prefix + p + "," + rest == prefix + p + ("," + rest)
  {
  }

  /** A comma-free piece in front of a joined list. */
  lemma PieceThenRest(prefix: string, p: string, joined: string, rest: seq<string>)
    requires CommaFree(p) && Pieces(prefix + p + "," + joined, |prefix| + |p| + 1) == rest
    ensures Pieces(prefix + (p + "," + joined), |prefix|) == [p] + rest
  {
    RegroupTail(prefix, p, joined);
    Regroup(prefix, p, joined);
    PieceAfter(prefix, p, "," + joined);
  }

  lemma LastPiece(prefix: string, p: string)
    requires CommaFree(p) && p != ""
    ensures Pieces(prefix + p, |prefix|) == [p]
  {
    assert prefix + p + "" == prefix + p;
    PieceAfter(prefix, p, "");
  }

  lemma Regroup(prefix: string, p: string, rest: string)
    ensures prefix + (p + "," + rest) == prefix + p + "," + rest
  {
  }

  lemma {:induction false} PiecesOfJoin(prefix: string, list: seq<string>)
    requires Parts(list)
    ensures Pieces(prefix + Join(list), |prefix|) == list
    decreases |list|
  {
    if list == [] {
      assert prefix + "" == prefix;
    } else if |list| == 1 {
      LastPiece(prefix, list[0]);
    } else {
      var p, rest := list[0], list[1..];
      PiecesOfJoin(prefix + p + ",", rest);
      PieceThenRest(prefix, p, Join(rest), rest);
      assert [p] + rest == list;
    }
  }

  lemma {:induction false} NonEmptyKeeps(list: seq<string>)
    requires forall k :: 0 <= k < |list| ==> list[k] != ""
    ensures NonEmpty(list) == list
    decreases |list|
  {
    if list == [] {
    } else {
      NonEmptyKeeps(list[1..]);
    }
  }

  /** Round trip: joining any list of non-empty comma-free strings and splitting gives the list. */
  lemma CsvRoundTrip(list: seq<string>)
    requires Parts(list)
    ensures Csv(Join(list)) == list
  {
    PiecesOfJoin("", list);
    assert "" + Join(list) == Join(list);
    NonEmptyKeeps(list);
  }

  // ----- maximal runs -----

  datatype Span = Span(from: nat, to: nat)

  /** A non-empty comma-free stretch of `s` that cannot be extended on either side. */
  predicate MaximalRun(s: string, r: Span)
  {
    && r.from < r.to <= |s| && NoComma(s, r.from, r.to)
    && (r.from > 0 ==> s[r.from - 1] == ',')
    && (r.to < |s| ==> s[r.to] == ',')
  }

  /** The stretches that the parts from `at` on occupy in `s`. */
  function Spans(s: string, at: nat): seq<Span>
    requires at <= |s|
    decreases |s| - at
  {
    var k := NextComma(s, at);
    var rest := if k < |s| then Spans(s, k + 1) else [];
    if at < k then [Span(at, k)] + rest else rest
  }

  /** The spans spell the parts, one by one. */
  predicate Spell(s: string, spans: seq<Span>, parts: seq<string>)
  {
    |spans| == |parts| &&
    forall k :: 0 <= k < |spans| ==> spans[k].from <= spans[k].to <= |s| && parts[k] == s[spans[k].from..spans[k].to]
  }

  lemma SpellCons(s: string, at: nat, k: nat, spans: seq<Span>, parts: seq<string>)
    requires at <= k <= |s| && Spell(s, spans, parts)
    ensures Spell(s, [Span(at, k)] + spans, [s[at..k]] + parts)
  {
  }

  lemma NonEmptyCons(p: string, rest: seq<string>)
    ensures NonEmpty([p] + rest) == if p != "" then [p] + NonEmpty(rest) else NonEmpty(rest)
  {
    assert ([p] + rest)[1..] == rest;
  }

  lemma {:induction false} SpansSpell(s: string, at: nat)
    requires at <= |s|
    ensures Spell(s, Spans(s, at), NonEmpty(Pieces(s, at)))
    decreases |s| - at
  {
    if at < |s| {
      var k := NextComma(s, at);
      var pieces := if k < |s| then Pieces(s, k + 1) else [];
      var spans := if k < |s| then Spans(s, k + 1) else [];
      assert Spell(s, spans, NonEmpty(pieces)) by {
        if k < |s| {
          SpansSpell(s, k + 1);
        }
      }
      assert Pieces(s, at) == [s[at..k]] + pieces;
      NonEmptyCons(s[at..k], pieces);
      SpellCons(s, at, k, spans, NonEmpty(pieces));
    }
  }

  /** Maximal runs at or after `at`, each past the comma that ends the one before. */
  predicate RunsFrom(s: string, at: nat, spans: seq<Span>)
    decreases |spans|
  {
    spans == [] || (spans[0].from >= at && MaximalRun(s, spans[0]) && RunsFrom(s, spans[0].to + 1, spans[1..]))
  }

  lemma RunsWeaken(s: string, later: nat, at: nat, spans: seq<Span>)
    requires RunsFrom(s, later, spans) && at <= later
    ensures RunsFrom(s, at, spans)
  {
  }

  lemma RunsCons(s: string, first: Span, rest: seq<Span>)
    requires MaximalRun(s, first) && RunsFrom(s, first.to + 1, rest)
    ensures RunsFrom(s, first.from, [first] + rest)
  {
    assert ([first] + rest)[1..] == rest;
  }

  lemma SpansMore(s: string, at: nat)
    requires at <= |s| && (at > 0 ==> s[at - 1] == ',')
    requires NextComma(s, at) < |s| ==> RunsFrom(s, NextComma(s, at) + 1, Spans(s, NextComma(s, at) + 1))
    ensures RunsFrom(s, at, Spans(s, at))
  {
    var k := NextComma(s, at);
    NextCommaStops(s, at);
    var rest := if k < |s| then Spans(s, k + 1) else [];
    if at < k {
      RunsCons(s, Span(at, k), rest);
    } else {
      RunsWeaken(s, k + 1, at, rest);
    }
  }

  lemma {:induction false} SpansAreRuns(s: string, at: nat)
    requires at <= |s| && (at > 0 ==> s[at - 1] == ',')
    ensures RunsFrom(s, at, Spans(s, at))
    decreases |s| - at
  {
    NextCommaStops(s, at);
    if NextComma(s, at) < |s| {
      SpansAreRuns(s, NextComma(s, at) + 1);
    }
    SpansMore(s, at);
  }

  /** Each span is a maximal run, and they come in order, apart. */
  predicate InOrder(s: string, at: nat, spans: seq<Span>)
  {
    && (forall k :: 0 <= k < |spans| ==> MaximalRun(s, spans[k]) && spans[k].from >= at)
    && (forall j, k :: 0 <= j < k < |spans| ==> spans[j].to < spans[k].from)
  }

  lemma OrderCons(s: string, at: nat, first: Span, rest: seq<Span>)
    requires first.from >= at && MaximalRun(s, first) && InOrder(s, first.to + 1, rest)
    ensures InOrder(s, at, [first] + rest)
  {
  }

  lemma {:induction false} RunsInOrder(s: string, at: nat, spans: seq<Span>)
    requires RunsFrom(s, at, spans)
    ensures InOrder(s, at, spans)
    decreases |spans|
  {
    if spans == [] {
    } else {
      RunsInOrder(s, spans[0].to + 1, spans[1..]);
      OrderCons(s, at, spans[0], spans[1..]);
      assert spans == [spans[0]] + spans[1..];
    }
  }

  lemma {:induction false} RunsAreSpans(s: string, at: nat, r: Span)
    requires at <= |s| && MaximalRun(s, r) && r.from >= at && (at > 0 ==> s[at - 1] == ',')
    ensures r in Spans(s, at)
    decreases |s| - at
  {
    var k := NextComma(s, at);
    NextCommaStops(s, at);
    if r.from > k {
      RunsAreSpans(s, k + 1, r);
    } else {
      RunIs(s, at, k, r);
      assert Spans(s, at)[0] == r;
    }
  }

  lemma RunIs(s: string, at: nat, k: nat, r: Span)
    requires at <= k <= |s| && NoComma(s, at, k) && (k < |s| ==> s[k] == ',')
    requires MaximalRun(s, r) && at <= r.from <= k && (at > 0 ==> s[at - 1] == ',')
    ensures r == Span(at, k)
  {
  }

  /** The parts are exactly the maximal non-empty comma-free runs of the string, in order. */
  lemma CsvFindsRuns(s: string)
    ensures Spell(s, Spans(s, 0), Csv(s)) && InOrder(s, 0, Spans(s, 0))
    ensures forall r :: MaximalRun(s, r) ==> r in Spans(s, 0)
  {
    SpansSpell(s, 0);
    SpansAreRuns(s, 0);
    RunsInOrder(s, 0, Spans(s, 0));
    forall r | MaximalRun(s, r)
      ensures r in Spans(s, 0)
    {
      RunsAreSpans(s, 0, r);
    }
  }
}
