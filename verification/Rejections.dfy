/** A rejected command changes nothing but the error queue and the event status, so a line does exactly what
    its pieces before the rejected one do. */
module Rejections {
  import opened Wrappers
  import opened Text
  import opened Pattern
  import opened Instrument
  import opened Effects
  import opened CommandLine

  // ------------------------------------------------------------------------ the error queue

  /** Equal in everything but the error queue and the event status register. */
  predicate SameSettings(a: State, b: State) {
    a.(errors := b.errors, status := a.status.(eventStatus := b.status.eventStatus)) == b
  }

  /** The queue after a series of errors that nobody reads. */
  function Queued(s: State, entries: seq<ErrorInfo>): State
    decreases |entries|
  {
    if entries == [] then s else Queued(PushError(s, entries[0].code, entries[0].message), entries[1..])
  }

  /** All entries while they fit; else the oldest 31 and -350 in the last place. */
  function Kept(all: seq<ErrorInfo>): seq<ErrorInfo> {
    if |all| <= 32 then all else all[..31] + [ErrorInfo(-350, "Queue overflow")]
  }

  lemma KeptAfterOne(queue: seq<ErrorInfo>, entries: seq<ErrorInfo>)
    requires |queue| == 32 && entries != []
    ensures Kept(queue[..31] + [ErrorInfo(-350, "Queue overflow")] + entries[1..]) == Kept(queue + entries)
  {
    var full := queue[..31] + [ErrorInfo(-350, "Queue overflow")];
    assert (full + entries[1..])[..31] == queue[..31] == (queue + entries)[..31];
    if entries[1..] == [] { assert full + entries[1..] == full; }
  }

  /** A full queue keeps its oldest 31 entries and ends in -350, however many more errors follow. */
  lemma {:induction false} OverflowKeepsTheOldest(s: State, entries: seq<ErrorInfo>)
    requires |s.errors| <= 32
    ensures Queued(s, entries).errors == Kept(s.errors + entries)
    decreases |entries|
  {
    if entries == [] {
      assert s.errors + entries == s.errors;
    } else {
      hide Kept;
      var after := PushError(s, entries[0].code, entries[0].message);
      OverflowKeepsTheOldest(after, entries[1..]);
      if |s.errors| < 32 {
        assert entries[0] == ErrorInfo(entries[0].code, entries[0].message);
        assert s.errors + [entries[0]] + entries[1..] == s.errors + entries;
      } else {
        KeptAfterOne(s.errors, entries);
      }
    }
  }

  lemma {:induction false} ErrorsKeepSettings(s: State, entries: seq<ErrorInfo>)
    ensures SameSettings(s, Queued(s, entries))
    decreases |entries|
  {
    if entries != [] {
      ErrorsKeepSettings(PushError(s, entries[0].code, entries[0].message), entries[1..]);
    }
  }

  // -------------------------------------------------------------------------- atomic lines

  /** Running some of the pieces and then the others. */
  lemma {:induction false} RunInTwoParts(m: Machine, s: State, first: seq<string>, second: seq<string>, path: seq<Token>)
    returns (between: seq<Token>)
    ensures var a := RunPieces(m, s, first, path);
            a.ending.Completed? ==> RunPieces(m, s, first + second, path)
                                    == Prepend(a.responses, RunPieces(m, a.state, second, between))
    decreases |first|
  {
    hide RequestFor, NextPath, PushError;
    between := path;
    if first == [] {
      assert first + second == second;
      assert Prepend([], RunPieces(m, s, second, path)) == RunPieces(m, s, second, path);
    } else {
      assert (first + second)[0] == first[0] && (first + second)[1..] == first[1..] + second;
      var text := Trim(first[0]);
      if text == "" {
        between := RunInTwoParts(m, s, first[1..], second, path);
      } else {
        var effect := m.perform(s, RequestFor(m.specs, text, path));
        if effect.Done? {
          between := RunInTwoParts(m, effect.state, first[1..], second, NextPath(text, path));
          var a := RunPieces(m, effect.state, first[1..], NextPath(text, path));
          var b := RunPieces(m, a.state, second, between);
          assert Listed(effect.response) + (a.responses + b.responses) == Listed(effect.response) + a.responses + b.responses;
        }
      }
    }
  }

  /** Where a line stops, the pieces before have completed and one error has been queued. */
  lemma {:induction false} StoppedAt(m: Machine, s: State, pieces: seq<string>, path: seq<Token>)
    returns (n: nat, code: int, message: string)
    requires RunPieces(m, s, pieces, path).ending.Stopped?
    ensures n < |pieces|
    ensures var done, whole := RunPieces(m, s, pieces[..n], path), RunPieces(m, s, pieces, path);
            done.ending.Completed? && whole == Outcome(PushError(done.state, code, message), done.responses, Stopped)
    decreases |pieces|
  {
    hide RequestFor, NextPath, PushError;
    var text := Trim(pieces[0]);
    n, code, message := 0, 0, "";
    if text == "" {
      n, code, message := StoppedAt(m, s, pieces[1..], path);
      n := n + 1;
      assert pieces[..n][1..] == pieces[1..][..n - 1];
    } else {
      var effect := m.perform(s, RequestFor(m.specs, text, path));
      if effect.Reject? {
        code, message := effect.code, effect.message;
        assert pieces[..0] == [];
      } else {
        n, code, message := StoppedAt(m, effect.state, pieces[1..], NextPath(text, path));
        n := n + 1;
        assert pieces[..n][0] == pieces[0] && pieces[..n][1..] == pieces[1..][..n - 1];
      }
    }
  }

  /** The first `n` pieces written as a line of their own run the same way. */
  lemma PrefixAsLine(m: Machine, s: State, line: string, n: nat)
    requires n <= |Split(Outside, line, ';')|
    ensures var pieces := Split(Outside, line, ';');
            RunLine(m, s, Join(pieces[..n], ';')) == RunPieces(m, s, pieces[..n], [])
  {
    hide RequestFor, NextPath, PushError;
    var pieces := Split(Outside, line, ';');
    SplitSeparates(line, ';');
    if n == 0 {
      assert Split(Outside, "", ';') == [""] && [""][1..] == [];
    } else {
      SplitOfJoin(pieces[..n], ';');
    }
  }

  /** What a line that stops leaves: exactly the state and the response of its leading pieces as a line of their own, and
      one error. */
  ghost predicate PrefixAndError(m: Machine, s: State, line: string, after: State, response: Option<string>) {
    exists n: nat, code: int, message: string | n < |Split(Outside, line, ';')| ::
      var done := RunLine(m, s, Join(Split(Outside, line, ';')[..n], ';'));
      && done.ending.Completed?
      && response == Response(done)
      && after == PushError(done.state, code, message)
      && SameSettings(done.state, after)
  }

  lemma PushErrorKeepsSettings(s: State, code: int, message: string)
    ensures SameSettings(s, PushError(s, code, message))
  {}

  /** One more entry, or -350 in the last place of a full queue. */
  ghost predicate OneMoreError(before: seq<ErrorInfo>, after: seq<ErrorInfo>) {
    if |before| >= 32 then after == before[..|before| - 1] + [ErrorInfo(-350, "Queue overflow")]
    else exists entry :: after == before + [entry]
  }

  lemma PushErrorIsOneMore(s: State, code: int, message: string)
    ensures OneMoreError(s.errors, PushError(s, code, message).errors)
  {
    assert s.errors + [ErrorInfo(code, message)] == s.errors + [ErrorInfo(code, message)];
  }

  /** Rejection is atomic over the whole command set. */
  lemma RejectionIsAtomic(w: World, s: State, line: string)
    ensures var o := RunLine(Simulator(w), s, line);
            o.ending.Stopped? ==> PrefixAndError(Simulator(w), s, line, o.state, Response(o))
  {
    hide EffectOf, RunPieces, PushError, Join;
    var m, pieces := Simulator(w), Split(Outside, line, ';');
    var o := RunLine(m, s, line);
    if o.ending.Stopped? {
      var n, code, message := StoppedAt(m, s, pieces, []);
      PrefixAsLine(m, s, line, n);
      PushErrorKeepsSettings(RunPieces(m, s, pieces[..n], []).state, code, message);
    }
  }
}
