/** What a results payload says about a report (sync/results.py
    `build_payload`, sync/stage.py `_triaged_detail`), as far as it decides
    whether the same payload can come back. */
module ResultsContent {
  import opened Common

  /** Stamps come from one strictly increasing clock and are positive; 0 stands
      for a missing row, as the empty string does in the code. */
  type Stamp = nat

  /** A failed stage row: the manual retry reset deletes these. */
  datatype Failure = Failure(stamp: Stamp, fix: bool)

  datatype Localization = Localization(created: Stamp, sha: string)

  datatype Detail = Fixed(name: string) | FixFailed | PrClosed | Localized | Stale | NotLocalized

  /** `prState` of the recorded PR. `Unread`: there is none, or it was never read. */
  datatype PrState = Unread | ReadOpen | Settled

  /** The rows of one report and the head commit of its project. */
  datatype Content = Content(
    updated: Stamp,                        // the newest stamp of the rows a reset keeps
    failures: seq<Failure>,
    localization: Option<Localization>,    // the latest completed one
    fixed: Stamp,                          // the newest completed fix row
    proposed: Stamp,                       // the newest proposal
    closedPr: Option<Stamp>,               // when its PR was settled as closed
    head: Option<string>,
    decided: Option<string>,               // the detail the status or the mode decides alone
    pr: PrState,
    text: string)                          // everything else in the payload

  /** A payload without its revision: `bugalizerUpdatedAt`, `stageDetail`,
      `prState`, and the rest. Its fingerprint is a collision-free hash of all
      four, so a core stands for its own fingerprint. */
  datatype Core = Core(stamp: Stamp, detail: Detail, pr: PrState, text: string)

  function Later(a: Stamp, b: Stamp): Stamp {
    if a < b then b else a
  }

  function NewestFailure(failures: seq<Failure>, fixOnly: bool): Stamp {
    if failures == [] then 0
    else if fixOnly && !failures[0].fix then NewestFailure(failures[1..], fixOnly)
    else Later(failures[0].stamp, NewestFailure(failures[1..], fixOnly))
  }

  /** `bugalizerUpdatedAt`: the newest of all stamps. */
  function Newest(c: Content): Stamp {
    Later(c.updated, NewestFailure(c.failures, false))
  }

  function LocalizedAt(c: Content): Stamp {
    if c.localization.Some? then c.localization.value.created else 0
  }

  /** `_triaged_detail`, after what the status or the mode decides. */
  function DetailOf(c: Content): Detail {
    var failed := NewestFailure(c.failures, true);
    if c.decided.Some? then Fixed(c.decided.value)
    else if failed > c.fixed && failed > LocalizedAt(c) && failed > c.proposed then FixFailed
    else if c.closedPr.Some? && Later(LocalizedAt(c), Later(failed, c.fixed)) <= c.closedPr.value then PrClosed
    else if c.localization.None? then NotLocalized
    else if c.head == Some(c.localization.value.sha) then Localized
    else Stale
  }

  function CoreOf(c: Content): Core {
    Core(Newest(c), DetailOf(c), c.pr, c.text)
  }

  /** The details the project's head commit decides. */
  predicate OfTheHead(d: Detail) {
    d.Localized? || d.Stale?
  }

  /** `pr_check_record`: a first read of the PR as open, which moves no stamp.
      A settled PR is not read again. */
  function PrRead(c: Content): Content {
    if c.pr.Unread? then c.(pr := ReadOpen) else c
  }

  /** `y` may follow `x` without a retry reset between them: a stamp moved, or
      nothing did but the first read of the PR and, if the head moved, a detail
      it decides. */
  predicate Follows(x: Core, y: Core, headMoves: bool) {
    || x.stamp < y.stamp
    || (x.stamp == y.stamp && x.text == y.text && (x.pr == y.pr || (x.pr.Unread? && y.pr.ReadOpen?))
        && (x.detail == y.detail || (headMoves && OfTheHead(x.detail) && OfTheHead(y.detail))))
  }

  lemma {:induction false} NewestFailureIs(failures: seq<Failure>, fixOnly: bool)
    ensures var n := NewestFailure(failures, fixOnly);
            && (forall f <- failures :: !fixOnly || f.fix ==> f.stamp <= n)
            && (n == 0 || exists f <- failures :: (!fixOnly || f.fix) && f.stamp == n)
  {
    if failures != [] {
      NewestFailureIs(failures[1..], fixOnly);
      assert failures == [failures[0]] + failures[1..];
    }
  }

  /** `bugalizerUpdatedAt` is one of the report's stamps, and none is newer. */
  lemma NewestIsTheNewest(c: Content)
    ensures c.updated <= Newest(c) && forall f <- c.failures :: f.stamp <= Newest(c)
    ensures Newest(c) == c.updated || exists f <- c.failures :: f.stamp == Newest(c)
  {
    NewestFailureIs(c.failures, false);
  }

  /** A failed fix after the last localization, proposal and finished fix. */
  predicate FixBroke(c: Content) {
    exists f <- c.failures :: f.fix && f.stamp > c.fixed && f.stamp > LocalizedAt(c) && f.stamp > c.proposed
  }

  /** A PR settled as closed, and nothing localized or fixed since. */
  predicate ClosedSince(c: Content) {
    && c.closedPr.Some? && LocalizedAt(c) <= c.closedPr.value && c.fixed <= c.closedPr.value
    && forall f <- c.failures :: f.fix ==> f.stamp <= c.closedPr.value
  }

  /** The detail of a report whose status and mode do not decide it: the newest
      thing that happened to it, as far as anything did. */
  lemma DetailDecides(c: Content)
    requires c.decided.None?
    ensures DetailOf(c) == if FixBroke(c) then FixFailed
                           else if ClosedSince(c) then PrClosed
                           else if c.localization.None? then NotLocalized
                           else if c.head == Some(c.localization.value.sha) then Localized else Stale
  {
    NewestFailureIs(c.failures, true);
  }

  /** The head commit decides between `localized` and `stale` and nothing else. */
  lemma HeadDecides(c: Content, head: Option<string>)
    ensures Follows(CoreOf(c), CoreOf(c.(head := head)), true)
    ensures CoreOf(c).detail != CoreOf(c.(head := head)).detail ==> c.localization.Some? && c.decided.None?
  {
  }

  /** A core that comes back after a different one, with no reset between: no
      stamp and no other content moved; the head did, away and back again. */
  lemma ReturnsOnlyWithTheHead(x: Core, y: Core, headMoves: bool)
    requires Follows(x, y, headMoves) && Follows(y, x, headMoves) && x != y
    ensures headMoves && x.stamp == y.stamp && x.pr == y.pr && x.text == y.text
    ensures OfTheHead(x.detail) && OfTheHead(y.detail)
  {
  }

  /** A reset can undo a stamp: a failure that was the newest row disappears,
      with the detail it caused. */
  lemma ResetReturns(c: Content, stamp: Stamp)
    requires c.failures == [] && stamp > Newest(c) && stamp > c.fixed && stamp > LocalizedAt(c) && stamp > c.proposed
    ensures var failed := c.(failures := [Failure(stamp, true)]);
            && Newest(failed) == stamp && CoreOf(failed) != CoreOf(c)
            && CoreOf(failed.(failures := [])) == CoreOf(c)
  {
    assert NewestFailure([Failure(stamp, true)], false) == stamp;
  }
}
