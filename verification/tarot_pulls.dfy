/** src/hooks/useTarotPulls.ts: the client state of the daily pull. The
    eligibility flags and the record of a new pull are values; the hook's
    state (`todaysPull`, `recentPulls`, `loading`, `error`, and the
    `lastDateChecked` day that the browser keeps) is a `PullsHook` object
    whose methods update it. What each store call resolves to is a
    parameter of the method that awaits it. */
module TarotPulls {
  import opened Records
  import Helpers
  import Api

  // ----- Eligibility -----

  /** The flags `needsTodayPull` returns. */
  datatype PullNeed = PullNeed(needsPull: bool, isNewDay: bool, isFirstTime: bool)

  /** `needsTodayPull`: a pull is needed exactly when today's pull is absent;
      it is then a new day for a user with earlier pulls and a first time for
      one without, and never both. */
  function NeedsTodayPull(todaysPull: Option<Pull>, recentPulls: seq<Pull>): (n: PullNeed)
    ensures n.needsPull <==> todaysPull.None?
    ensures n.needsPull ==> n.isNewDay != n.isFirstTime
    ensures n.needsPull ==> (n.isNewDay <==> |recentPulls| > 0)
    ensures !n.needsPull ==> !n.isNewDay && !n.isFirstTime
  {
    if todaysPull.None? then
      var hasPulledBefore := |recentPulls| > 0;
      PullNeed(true, hasPulledBefore, !hasPulledBefore)
    else
      PullNeed(false, false, false)
  }

  // ----- The record of a new pull -----

  /** The `pullData` literal of `createPull`: today's date key, the notes or
      '' (`notes || ''`), and never reversed. */
  function PullRecord(userId: string, cardId: nat, pullType: PullType,
                      notes: Option<string>, nowIso: string): (r: NewPull)
    ensures r.userId == userId && r.cardId == cardId && r.pullType == pullType
    ensures r.pullDate == Helpers.TodayDate(nowIso)
    ensures !r.isReversed
    ensures notes.None? ==> r.notes == ""
    ensures notes.Some? ==> r.notes == notes.value
  {
    NewPull(userId, cardId, Helpers.TodayDate(nowIso), pullType, OrEmpty(notes), false)
  }

  /** Once a pull stored from such a record is in the history,
      `hasPulledToday` holds for the same clock reading. */
  lemma {:induction false} RecordedPullIsToday(userId: string, cardId: nat, pullType: PullType,
                            notes: Option<string>, nowIso: string, history: seq<Pull>, i: nat)
    requires i < |history|
    requires history[i].pullDate == PullRecord(userId, cardId, pullType, notes, nowIso).pullDate
    ensures Helpers.HasPulledToday(history, nowIso)
  {
  }

  // ----- The notes edit -----

  /** `prev.map(pull => pull.id === pullId ? updatedPull : pull)`. */
  function ReplaceById(pulls: seq<Pull>, pullId: string, updated: Pull): (r: seq<Pull>)
    ensures |r| == |pulls|
  {
    if pulls == [] then []
    else [if pulls[0].id == pullId then updated else pulls[0]] + ReplaceById(pulls[1..], pullId, updated)
  }

  /** Entries with the edited id become the updated pull; every other entry
      stays as it was, at its place. */
  lemma {:induction false} ReplaceByIdAt(pulls: seq<Pull>, pullId: string, updated: Pull, i: nat)
    requires i < |pulls|
    ensures pulls[i].id == pullId ==> ReplaceById(pulls, pullId, updated)[i] == updated
    ensures pulls[i].id != pullId ==> ReplaceById(pulls, pullId, updated)[i] == pulls[i]
  {
    if i > 0 {
      ReplaceByIdAt(pulls[1..], pullId, updated, i - 1);
    }
  }

  /** Replacing twice with the same pull is replacing once. */
  lemma {:induction false} ReplaceByIdIdempotent(pulls: seq<Pull>, pullId: string, updated: Pull)
    ensures ReplaceById(ReplaceById(pulls, pullId, updated), pullId, updated)
         == ReplaceById(pulls, pullId, updated)
  {
    if pulls != [] {
      ReplaceByIdIdempotent(pulls[1..], pullId, updated);
    }
  }

  /** A list without the edited id is left as it is. */
  lemma {:induction false} ReplaceByIdAbsent(pulls: seq<Pull>, pullId: string, updated: Pull)
    requires forall i :: 0 <= i < |pulls| ==> pulls[i].id != pullId
    ensures ReplaceById(pulls, pullId, updated) == pulls
  {
    if pulls != [] {
      ReplaceByIdAbsent(pulls[1..], pullId, updated);
    }
  }

  /** `todaysPull?.id === pullId ? updatedPull : todaysPull`. */
  function ReplaceToday(todaysPull: Option<Pull>, pullId: string, updated: Pull): (r: Option<Pull>)
    ensures todaysPull.Some? && todaysPull.value.id == pullId ==> r == Some(updated)
    ensures todaysPull.None? || todaysPull.value.id != pullId ==> r == todaysPull
  {
    if todaysPull.Some? && todaysPull.value.id == pullId then Some(updated) else todaysPull
  }

  // ----- The hook's state -----

  class PullsHook {
    /** The signed-in user's id (`useAuth().user`), if any. */
    var user: Option<string>
    var todaysPull: Option<Pull>
    var recentPulls: seq<Pull>
    var loading: bool
    var error: Option<string>
    /** The day key last stored under 'lastDateChecked'. */
    var lastDateChecked: Option<string>

    /** The hook's initial state, before its effects run. */
    constructor(user: Option<string>, lastDateChecked: Option<string>)
      ensures this.user == user && this.lastDateChecked == lastDateChecked
      ensures todaysPull.None? && recentPulls == [] && loading && error.None?
    {
      this.user := user;
      todaysPull := None;
      recentPulls := [];
      loading := true;
      error := None;
      this.lastDateChecked := lastDateChecked;
    }

    /** `fetchTodaysPull`: without a user nothing happens; otherwise the
        fetched pull replaces `todaysPull`, or the failure's text is
        recorded in `error`. */
    method FetchTodaysPull(fetched: Outcome<Option<Pull>>)
      modifies this
      ensures user == old(user) && recentPulls == old(recentPulls) && loading == old(loading)
      ensures lastDateChecked == old(lastDateChecked)
      ensures old(user).None? || fetched.Failed? ==> todaysPull == old(todaysPull)
      ensures old(user).Some? && fetched.Done? ==> todaysPull == fetched.value
      ensures old(user).Some? && fetched.Failed? ==>
        error == Some(ErrorText(fetched.failure, "Failed to fetch today's pull"))
      ensures old(user).None? || fetched.Done? ==> error == old(error)
    {
      if user.None? {
        return;
      }
      match fetched
      case Done(p) => todaysPull := p;
      case Failed(f) => error := Some(ErrorText(f, "Failed to fetch today's pull"));
    }

    /** `fetchRecentPulls`: without a user nothing happens; otherwise the
        fetched list replaces `recentPulls`, or the failure's text is
        recorded in `error`. */
    method FetchRecentPulls(fetched: Outcome<seq<Pull>>)
      modifies this
      ensures user == old(user) && todaysPull == old(todaysPull) && loading == old(loading)
      ensures lastDateChecked == old(lastDateChecked)
      ensures old(user).None? || fetched.Failed? ==> recentPulls == old(recentPulls)
      ensures old(user).Some? && fetched.Done? ==> recentPulls == fetched.value
      ensures old(user).Some? && fetched.Failed? ==>
        error == Some(ErrorText(fetched.failure, "Failed to fetch recent pulls"))
      ensures old(user).None? || fetched.Done? ==> error == old(error)
    {
      if user.None? {
        return;
      }
      match fetched
      case Done(ps) => recentPulls := ps;
      case Failed(f) => error := Some(ErrorText(f, "Failed to fetch recent pulls"));
    }

    /** `refresh`: with a user, both fetches run and loading ends false;
        without one nothing happens. */
    method Refresh(today: Outcome<Option<Pull>>, recent: Outcome<seq<Pull>>)
      modifies this
      ensures user == old(user) && lastDateChecked == old(lastDateChecked)
      ensures old(user).None? ==>
        todaysPull == old(todaysPull) && recentPulls == old(recentPulls)
        && loading == old(loading) && error == old(error)
      ensures old(user).Some? ==>
        && todaysPull == (if today.Done? then today.value else old(todaysPull))
        && recentPulls == (if recent.Done? then recent.value else old(recentPulls))
        && !loading
        && error == (if recent.Failed? then Some(ErrorText(recent.failure, "Failed to fetch recent pulls"))
                     else if today.Failed? then Some(ErrorText(today.failure, "Failed to fetch today's pull"))
                     else old(error))
    {
      if user.None? {
        return;
      }
      loading := true;
      FetchTodaysPull(today);
      FetchRecentPulls(recent);
      loading := false;
    }

    /** The effect on a change of user: a signed-in user's data is fetched;
        signing out clears both pulls. */
    method SetUser(u: Option<string>, today: Outcome<Option<Pull>>, recent: Outcome<seq<Pull>>)
      modifies this
      ensures user == u && lastDateChecked == old(lastDateChecked) && !loading
      ensures u.None? ==> todaysPull.None? && recentPulls == [] && error == old(error)
      ensures u.Some? ==>
        && todaysPull == (if today.Done? then today.value else old(todaysPull))
        && recentPulls == (if recent.Done? then recent.value else old(recentPulls))
        && error == (if recent.Failed? then Some(ErrorText(recent.failure, "Failed to fetch recent pulls"))
                     else if today.Failed? then Some(ErrorText(today.failure, "Failed to fetch today's pull"))
                     else old(error))
    {
      user := u;
      if u.Some? {
        loading := true;
        FetchTodaysPull(today);
        FetchRecentPulls(recent);
        loading := false;
      } else {
        todaysPull := None;
        recentPulls := [];
        loading := false;
      }
    }

    /** `createPull`: without a user it throws before the store is called
        (`sent` is None). Otherwise the record of the pull is sent; a failure
        is rethrown with its text and changes nothing; a created pull
        becomes today's pull and the recent pulls are fetched again. */
    method CreatePull(cardId: nat, pullType: PullType, notes: Option<string>, nowIso: string,
                      created: Outcome<Pull>, recent: Outcome<seq<Pull>>)
      returns (r: Outcome<Pull>, sent: Option<NewPull>)
      modifies this
      ensures user == old(user) && loading == old(loading) && lastDateChecked == old(lastDateChecked)
      ensures old(user).None? ==>
        && r == Failed(Thrown("User not authenticated")) && sent.None?
        && todaysPull == old(todaysPull) && recentPulls == old(recentPulls) && error == old(error)
      ensures old(user).Some? ==> sent == Some(PullRecord(old(user).value, cardId, pullType, notes, nowIso))
      ensures old(user).Some? && created.Failed? ==>
        && r == Failed(Thrown(ErrorText(created.failure, "Failed to create pull")))
        && todaysPull == old(todaysPull) && recentPulls == old(recentPulls) && error == old(error)
      ensures old(user).Some? && created.Done? ==>
        && r == created && todaysPull == Some(created.value)
        && recentPulls == (if recent.Done? then recent.value else old(recentPulls))
        && error == (if recent.Failed? then Some(ErrorText(recent.failure, "Failed to fetch recent pulls"))
                     else old(error))
    {
      if user.None? {
        return Failed(Thrown("User not authenticated")), None;
      }
      var pullData := PullRecord(user.value, cardId, pullType, notes, nowIso);
      sent := Some(pullData);
      match created
      case Failed(f) =>
        r := Failed(Thrown(ErrorText(f, "Failed to create pull")));
      case Done(newPull) =>
        todaysPull := Some(newPull);
        FetchRecentPulls(recent);
        r := created;
    }

    /** `updatePullNotes`: an empty pull id throws before the store is
        called; a failure is rethrown with its text; an updated pull replaces
        today's pull when the ids agree, and every recent pull with that id. */
    method UpdatePullNotes(pullId: string, notes: string, updated: Outcome<Pull>)
      returns (r: Outcome<Pull>)
      modifies this
      ensures user == old(user) && loading == old(loading) && error == old(error)
      ensures lastDateChecked == old(lastDateChecked)
      ensures pullId == "" ==> r == Failed(Thrown("Pull ID is required to update notes"))
      ensures pullId != "" && updated.Failed? ==>
        r == Failed(Thrown(ErrorText(updated.failure, "Failed to update notes")))
      ensures pullId == "" || updated.Failed? ==>
        todaysPull == old(todaysPull) && recentPulls == old(recentPulls)
      ensures pullId != "" && updated.Done? ==>
        && r == updated
        && todaysPull == ReplaceToday(old(todaysPull), pullId, updated.value)
        && recentPulls == ReplaceById(old(recentPulls), pullId, updated.value)
    {
      if pullId == "" {
        return Failed(Thrown("Pull ID is required to update notes"));
      }
      match updated
      case Failed(f) =>
        r := Failed(Thrown(ErrorText(f, "Failed to update notes")));
      case Done(u) =>
        if todaysPull.Some? && todaysPull.value.id == pullId {
          todaysPull := Some(u);
        }
        recentPulls := ReplaceById(recentPulls, pullId, u);
        r := updated;
    }

    /** `getPullNotes`: null without a user, for an empty pull id, and when
        the store call fails; otherwise the notes row. Nothing changes. */
    method GetPullNotes(pullId: string, fetched: Outcome<Api.NotesRow>)
      returns (r: Option<Api.NotesRow>)
      ensures r.Some? <==> user.Some? && pullId != "" && fetched.Done?
      ensures r.Some? ==> r.value == fetched.value
    {
      if user.None? || pullId == "" {
        return None;
      }
      match fetched
      case Failed(_) => r := None;
      case Done(row) => r := Some(row);
    }

    /** `checkDateChange` (installed only while a user is signed in): when
        the stored day differs from today's key, today's key is stored and
        the data refreshed; otherwise nothing happens. */
    method CheckDateChange(nowIso: string, today: Outcome<Option<Pull>>, recent: Outcome<seq<Pull>>)
      returns (refreshed: bool)
      modifies this
      ensures refreshed <==> old(user).Some? && old(lastDateChecked) != Some(Helpers.TodayDate(nowIso))
      ensures refreshed ==> lastDateChecked == Some(Helpers.TodayDate(nowIso))
      ensures refreshed ==>
        && todaysPull == (if today.Done? then today.value else old(todaysPull))
        && recentPulls == (if recent.Done? then recent.value else old(recentPulls))
        && !loading
        && error == (if recent.Failed? then Some(ErrorText(recent.failure, "Failed to fetch recent pulls"))
                     else if today.Failed? then Some(ErrorText(today.failure, "Failed to fetch today's pull"))
                     else old(error))
      ensures old(user).Some? ==> lastDateChecked == Some(Helpers.TodayDate(nowIso))
      ensures !refreshed ==>
        && lastDateChecked == old(lastDateChecked) && todaysPull == old(todaysPull)
        && recentPulls == old(recentPulls) && loading == old(loading) && error == old(error)
      ensures user == old(user)
    {
      if user.None? {
        return false;
      }
      var currentDate := Helpers.TodayDate(nowIso);
      refreshed := lastDateChecked != Some(currentDate);
      if refreshed {
        lastDateChecked := Some(currentDate);
        Refresh(today, recent);
      }
    }
  }

  /** A second check on the same day (the same date key) refreshes nothing. */
  method CheckTwiceSameDay(hook: PullsHook, first: string, second: string,
                           today: Outcome<Option<Pull>>, recent: Outcome<seq<Pull>>)
    returns (again: bool)
    requires Helpers.TodayDate(first) == Helpers.TodayDate(second)
    modifies hook
    ensures !again
  {
    var _ := hook.CheckDateChange(first, today, recent);
    again := hook.CheckDateChange(second, today, recent);
  }
}
