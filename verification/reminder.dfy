/** The reminder composer: one payment request per member of a subscription,
    joined into a text the user can copy or share. `Formatters.currency` is a
    parameter, `fmt`, since the model does not render numbers. */
module Reminder {
  import opened Common
  import opened Text
  import opened Models

  /** Who the reminders ask members to pay: the first settings record's
      `userName` as typed, or "the organizer" when it is empty or missing. */
  function ContactName(settings: seq<AppSettings>): (r: string)
    ensures settings != [] && settings[0].userName != [] ==> r == settings[0].userName
    ensures settings == [] || settings[0].userName == [] ==> r == "the organizer"
    ensures r != []
  {
    if settings != [] && settings[0].userName != [] then settings[0].userName else "the organizer"
  }

  /** The fixed template of one reminder line. */
  function ReminderLine(memberName: string, serviceName: string, amountText: string, contact: string): (r: string)
    ensures HasPrefix(r, "Hi ")
  {
    "Hi " + memberName + "! Your share for " + serviceName + " is " + amountText + ". Please send it to " + contact + "."
  }

  /** The shares that produce a line: those with a member. */
  function SharesWithMember(ids: seq<ShareId>, shares: map<ShareId, Share>, members: map<MemberId, Member>): (r: seq<ShareId>)
    ensures forall i :: i in r <==> i in ids && i in shares && shares[i].member.Some? && shares[i].member.value in members
  {
    Filter(ids, (i: ShareId) => i in shares && shares[i].member.Some? && shares[i].member.value in members)
  }

  /** One line per share, in order, naming the share's member and amount. */
  function LinesFor(held: seq<ShareId>, shares: map<ShareId, Share>, members: map<MemberId, Member>,
                    sub: Subscription, contact: string, fmt: (real, string) -> string): (r: seq<string>)
    requires forall i :: i in held ==> i in shares && shares[i].member.Some? && shares[i].member.value in members
    ensures |r| == |held|
    ensures forall k :: 0 <= k < |r| ==>
      r[k] == ReminderLine(members[shares[held[k]].member.value].name, sub.serviceName,
                           fmt(shares[held[k]].amount, sub.currency), contact)
  {
    if held == [] then []
    else
      var s := shares[held[0]];
      [ReminderLine(members[s.member.value].name, sub.serviceName, fmt(s.amount, sub.currency), contact)]
        + LinesFor(held[1..], shares, members, sub, contact, fmt)
  }

  /** The opening the copy guard looks for. */
  const PlaceholderOpening: string := "Add members"

  /** The text shown when no share has a member. */
  const Placeholder: string := PlaceholderOpening + " to this subscription to build reminders."

  /** `messagePreview`: the placeholder when no share has a member, otherwise
      the lines separated by blank lines. */
  function MessagePreview(sub: Subscription, shares: map<ShareId, Share>, members: map<MemberId, Member>,
                          settings: seq<AppSettings>, fmt: (real, string) -> string): (r: string)
    ensures SharesWithMember(sub.shares, shares, members) == [] ==> r == Placeholder
    ensures SharesWithMember(sub.shares, shares, members) != [] ==>
      r == Join(LinesFor(SharesWithMember(sub.shares, shares, members), shares, members, sub, ContactName(settings), fmt), "\n\n")
  {
    var held := SharesWithMember(sub.shares, shares, members);
    var lines := LinesFor(held, shares, members, sub, ContactName(settings), fmt);
    if lines == [] then Placeholder else Join(lines, "\n\n")
  }

  /** The Copy and Share actions refuse empty text and the placeholder. */
  predicate CanCopy(text: string) {
    text != [] && !HasPrefix(text, PlaceholderOpening)
  }

  /** The placeholder cannot be copied. */
  lemma PlaceholderRefused()
    ensures !CanCopy(Placeholder)
  {
    assert Placeholder[..|PlaceholderOpening|] == PlaceholderOpening;
  }

  /** Reminder lines joined together can be copied. */
  lemma {:induction false} JoinedLinesAccepted(lines: seq<string>)
    requires lines != [] && forall k :: 0 <= k < |lines| ==> HasPrefix(lines[k], "Hi ")
    ensures CanCopy(Join(lines, "\n\n"))
  {
    var text := Join(lines, "\n\n");
    var first := lines[0];
    assert HasPrefix(first, "Hi ");
    assert first[..3] == "Hi ";
    assert first[0] == 'H';
    assert HasPrefix(text, first);
    assert text[0] == first[0];
    assert PlaceholderOpening[0] == 'A';
  }

  /** Copying is offered exactly when some share of the subscription has a member. */
  lemma {:induction false} CopyOfferedIffSomeMember(sub: Subscription, shares: map<ShareId, Share>, members: map<MemberId, Member>,
                                 settings: seq<AppSettings>, fmt: (real, string) -> string)
    ensures CanCopy(MessagePreview(sub, shares, members, settings, fmt)) <==> SharesWithMember(sub.shares, shares, members) != []
  {
    var held := SharesWithMember(sub.shares, shares, members);
    if held == [] {
      PlaceholderRefused();
    } else {
      var lines := LinesFor(held, shares, members, sub, ContactName(settings), fmt);
      JoinedLinesAccepted(lines);
    }
  }

  /** A subscription with a single member's share produces exactly that one line. */
  lemma SingleMemberMessage(sub: Subscription, shares: map<ShareId, Share>, members: map<MemberId, Member>,
                            settings: seq<AppSettings>, fmt: (real, string) -> string)
    requires |SharesWithMember(sub.shares, shares, members)| == 1
    ensures var s := shares[SharesWithMember(sub.shares, shares, members)[0]];
      MessagePreview(sub, shares, members, settings, fmt)
        == ReminderLine(members[s.member.value].name, sub.serviceName, fmt(s.amount, sub.currency), ContactName(settings))
  {
  }
}
