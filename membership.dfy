/** `_is_member_left`: whether a membership change is a departure. */
module Membership {
  import opened Wrappers
  import opened Entities

  /** The status strings the classifier names, as a closed enumeration.
      "banned" is not a status Telegram sends, but the code lists it. */
  datatype Status = Creator | Administrator | Member | Restricted | Left | Kicked | Banned {

    /** The platform's string for the status. */
    function Name(): string {
      match this
      case Creator => "creator"
      case Administrator => "administrator"
      case Member => "member"
      case Restricted => "restricted"
      case Left => "left"
      case Kicked => "kicked"
      case Banned => "banned"
    }

    /** The user holds some form of membership. */
    predicate HeldMembership() {
      Member? || Administrator? || Creator? || Restricted?
    }

    /** The user is no longer in the chat. */
    predicate IsGone() {
      Left? || Kicked? || Banned?
    }
  }

  /** The status a string names, if it names one of the enumeration. */
  function ParseStatus(s: string): (r: Option<Status>)
    ensures r.Some? ==> r.value.Name() == s
    ensures r.None? ==> forall st: Status :: st.Name() != s
  {
    if s == "creator" then Some(Creator)
    else if s == "administrator" then Some(Administrator)
    else if s == "member" then Some(Member)
    else if s == "restricted" then Some(Restricted)
    else if s == "left" then Some(Left)
    else if s == "kicked" then Some(Kicked)
    else if s == "banned" then Some(Banned)
    else None
  }

  /** Status strings that count as having been in the chat. */
  const MemberStatuses: seq<string> := ["member", "administrator", "creator", "restricted"]

  /** Status strings that count as having gone. */
  const GoneStatuses: seq<string> := ["left", "kicked", "banned"]

  /** The user was a member (of any kind) and now has left, been kicked or
      been banned. A status string outside the enumeration never counts. */
  function IsMemberLeft(update: MemberUpdate): (r: bool)
    ensures r <==>
      var was := ParseStatus(update.oldChatMember.status);
      var now := ParseStatus(update.newChatMember.status);
      was.Some? && was.value.HeldMembership() && now.Some? && now.value.IsGone()
  {
    var wasMember := update.oldChatMember.status in MemberStatuses;
    var isGone := update.newChatMember.status in GoneStatuses;
    wasMember && isGone
  }

  /** Each status has its own string, and the string reads back as the status. */
  lemma StatusNamesRoundTrip(st: Status, other: Status)
    ensures ParseStatus(st.Name()) == Some(st)
    ensures st.Name() == other.Name() ==> st == other
  {
  }

  /** The full truth table over the enumeration. */
  lemma DepartureTruthTable(update: MemberUpdate, was: Status, now: Status)
    requires update.oldChatMember.status == was.Name()
    requires update.newChatMember.status == now.Name()
    ensures IsMemberLeft(update) <==>
      was in {Member, Administrator, Creator, Restricted} && now in {Left, Kicked, Banned}
  {
    StatusNamesRoundTrip(was, was);
    StatusNamesRoundTrip(now, now);
  }

  /** Worked cases: member to left is a departure; restricted to restricted
      and left to member are not. */
  lemma DepartureExamples(update: MemberUpdate)
    ensures update.oldChatMember.status == "member" && update.newChatMember.status == "left"
      ==> IsMemberLeft(update)
    ensures update.oldChatMember.status == "restricted" && update.newChatMember.status == "restricted"
      ==> !IsMemberLeft(update)
    ensures update.oldChatMember.status == "left" && update.newChatMember.status == "member"
      ==> !IsMemberLeft(update)
  {
  }
}
