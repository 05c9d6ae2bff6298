/** src/components/dashboard/UpgradePrompt.tsx: how urgently a free account
    is asked to upgrade, given the days left before its history starts being
    deleted. The colours, the icon and the heading all follow the same
    three-way choice; the message follows the number of days; the progress
    bar never shrinks below 5%. */
module UpgradePrompt {
  import Text

  /** `isUrgent`: a week or less is left. */
  predicate IsUrgent(daysRemaining: int) {
    daysRemaining <= 7
  }

  /** `isVeryUrgent`: three days or less are left. */
  predicate IsVeryUrgent(daysRemaining: int) {
    daysRemaining <= 3
  }

  /** A very urgent prompt is always urgent too. */
  lemma {:induction false} VeryUrgentIsUrgent(daysRemaining: int)
    ensures IsVeryUrgent(daysRemaining) ==> IsUrgent(daysRemaining)
  {
  }

  /** The three looks of the prompt, chosen by the nested conditionals that
      pick its border, icon, heading and bar colour. */
  datatype Level = Imminent | Warning | Invitation

  function LevelOf(daysRemaining: int): (l: Level)
    ensures l == Imminent <==> IsVeryUrgent(daysRemaining)
    ensures l == Warning <==> IsUrgent(daysRemaining) && !IsVeryUrgent(daysRemaining)
    ensures l == Invitation <==> !IsUrgent(daysRemaining)
  {
    if IsVeryUrgent(daysRemaining) then Imminent
    else if IsUrgent(daysRemaining) then Warning
    else Invitation
  }

  /** The heading of each look. */
  function Heading(daysRemaining: int): (h: string)
    ensures IsVeryUrgent(daysRemaining) ==> h == "Data Deletion Imminent!"
    ensures IsUrgent(daysRemaining) && !IsVeryUrgent(daysRemaining) ==> h == "Data Deletion Warning"
    ensures !IsUrgent(daysRemaining) ==> h == "Unlock Unlimited History"
  {
    match LevelOf(daysRemaining)
    case Imminent => "Data Deletion Imminent!"
    case Warning => "Data Deletion Warning"
    case Invitation => "Unlock Unlimited History"
  }

  /** The heading warns of deletion exactly when the prompt is urgent, and
      calls it imminent exactly when it is very urgent; fewer days never
      give a calmer heading. */
  lemma {:induction false} HeadingFollowsUrgency(daysRemaining: int, fewer: int)
    requires fewer <= daysRemaining
    ensures Heading(daysRemaining) != "Unlock Unlimited History" <==> IsUrgent(daysRemaining)
    ensures Heading(daysRemaining) == "Data Deletion Imminent!" <==> IsVeryUrgent(daysRemaining)
    ensures Heading(daysRemaining) == "Data Deletion Imminent!" ==> Heading(fewer) == "Data Deletion Imminent!"
    ensures Heading(daysRemaining) == "Data Deletion Warning" ==> Heading(fewer) != "Unlock Unlimited History"
  {
  }

  const Expired: string := "Your data retention period has expired. Upgrade now to keep your history!"
  const OneDayLeft: string := "You have 1 day left before your pull history starts getting deleted."
  const MessageStart: string := "You have "
  const MessageEnd: string := " days left before your pull history starts getting deleted."

  /** The message: expiry at 0 days, the singular text at 1 day, and the
      number of days in the plural text otherwise. */
  function Message(daysRemaining: int): (m: string)
    ensures daysRemaining == 0 ==> m == Expired
    ensures daysRemaining == 1 ==> m == OneDayLeft
    ensures daysRemaining != 0 && daysRemaining != 1 ==>
      m == MessageStart + Text.IntToString(daysRemaining) + MessageEnd
  {
    if daysRemaining == 0 then Expired
    else if daysRemaining == 1 then OneDayLeft
    else MessageStart + Text.IntToString(daysRemaining) + MessageEnd
  }

  /** The middle of `a + b + c` is `b`. */
  lemma {:induction false} Middle(a: string, b: string, c: string)
    ensures (a + b + c)[|a|..|a| + |b|] == b
  {
  }

  /** For two or more days the message carries the number: the digits that
      follow "You have " read back as the days remaining. */
  lemma {:induction false} MessageCarriesDays(daysRemaining: nat)
    requires daysRemaining >= 2
    ensures var m := Message(daysRemaining);
      var n := |Text.NatToString(daysRemaining)|;
      && |MessageStart| + n <= |m|
      && (forall i :: |MessageStart| <= i < |MessageStart| + n ==> Text.IsDigit(m[i]))
      && Text.DigitsValue(m[|MessageStart|..|MessageStart| + n]) == daysRemaining
  {
    var s := Text.NatToString(daysRemaining);
    Middle(MessageStart, s, MessageEnd);
    var m := Message(daysRemaining);
    assert m[|MessageStart|..|MessageStart| + |s|] == s;
    forall i | |MessageStart| <= i < |MessageStart| + |s| ensures Text.IsDigit(m[i]) {
      assert m[i] == s[i - |MessageStart|];
    }
  }

  /** The width of the bar, in percent: the share of a 60-day window that is
      left, but never below 5 (exact rational arithmetic). */
  function BarWidth(daysRemaining: int): (w: real)
    ensures w >= 5.0
    ensures w == 5.0 <==> daysRemaining <= 3
    ensures daysRemaining >= 3 ==> w * 60.0 == daysRemaining as real * 100.0
  {
    var share := daysRemaining as real / 60.0 * 100.0;
    if 5.0 >= share then 5.0 else share
  }

  /** More days never give a shorter bar, and a full window fills it. */
  lemma {:induction false} BarWidthMonotone(fewer: int, more: int)
    requires fewer <= more
    ensures BarWidth(fewer) <= BarWidth(more)
    ensures BarWidth(60) == 100.0
  {
  }
}
