// The session and appointment state of the page: whether a user is logged in,
// the display name, and the ordered list of booked appointments, together with
// the handlers that change them and the counts the dashboard shows.
//
// Each handler is specified by a pure step function on a `SessionState` value;
// the class `Session` holds the same three variables the page keeps and its
// methods are proved to move its state exactly as the step functions say.
module Telehealth {
  import opened JsString
  import Navigation

  datatype Option<T> = None | Some(value: T)

  /** An appointment's status; the page only ever stores 'upcoming' or 'completed'. */
  datatype Status = Upcoming | Completed

  datatype Appointment = Appointment(doctor: string, date: string, time: string, reason: string, status: Status)

  datatype SessionState = SessionState(loggedIn: bool, userName: string, appointments: seq<Appointment>)

  /** The figures `updateDashboard` writes into the page. */
  datatype Summary = Summary(total: nat, upcoming: nat, completed: nat, recentDoctor: Option<string>)

  const GuestName := "Guest"
  const DefaultName := "User"
  const DefaultReason := "General Consultation"

  /** The state-machine invariant: a logged-out session holds no appointments. */
  predicate Inv(s: SessionState) {
    !s.loggedIn ==> s.appointments == []
  }

  /** The name shown after logging in with `email`: its part before the first '@', first letter upper-cased. */
  function DisplayName(email: string): (r: string)
    ensures |r| <= |email| && '@' !in email[..|r|]
    ensures |r| < |email| ==> email[|r|] == '@'
    ensures r != [] ==> r[0] == ToUpperAscii(email[0]) && r[1..] == email[1..|r|]
  {
    CapitalizeFirst(FirstField(email, '@'))
  }

  /** The name kept after registering as `name`: "User" for a blank name, otherwise `name` untrimmed. */
  function RegisteredName(name: string): (r: string)
    ensures (forall i | 0 <= i < |name| :: IsWhitespace(name[i])) ==> r == DefaultName
    ensures (exists i | 0 <= i < |name| :: !IsWhitespace(name[i])) ==> r == name
  {
    if Trim(name) == "" then DefaultName else name
  }

  /** The reason line of an appointment in the list: `reason || 'General Consultation'`. */
  function ReasonLabel(a: Appointment): (line: string)
    ensures line != ""
    ensures a.reason != "" ==> line == a.reason
    ensures a.reason == "" ==> line == DefaultReason
  {
    if a.reason != "" then a.reason else DefaultReason
  }

  // ----- Handlers as step functions -----

  /** Submitting the login form; the list is left as it was. */
  function AfterLogin(s: SessionState, email: string): (r: SessionState)
    ensures r.loggedIn && r.userName == DisplayName(email)
    ensures r.appointments == s.appointments
    ensures Inv(r)
  {
    s.(userName := DisplayName(email), loggedIn := true)
  }

  /** Submitting the registration form; the list is left as it was. */
  function AfterRegister(s: SessionState, name: string): (r: SessionState)
    ensures r.loggedIn && r.userName == RegisteredName(name)
    ensures r.appointments == s.appointments
    ensures Inv(r)
  {
    s.(userName := RegisteredName(name), loggedIn := true)
  }

  /** Logging out, which is also how the page starts. */
  function AfterLogout(s: SessionState): (r: SessionState)
    ensures !r.loggedIn && r.userName == GuestName && r.appointments == []
    ensures Inv(r)
  {
    s.(loggedIn := false, userName := GuestName, appointments := [])
  }

  /** Submitting the booking form, which is only reachable while logged in. */
  function AfterBook(s: SessionState, doctor: string, date: string, time: string, reason: string): (r: SessionState)
    requires s.loggedIn
    ensures |r.appointments| == |s.appointments| + 1
    ensures r.appointments[..|s.appointments|] == s.appointments
    ensures r.appointments[|s.appointments|] == Appointment(doctor, date, time, reason, Upcoming)
    ensures r.loggedIn == s.loggedIn && r.userName == s.userName
    ensures Inv(r)
  {
    s.(appointments := s.appointments + [Appointment(doctor, date, time, reason, Upcoming)])
  }

  /** The delayed callback of `joinCall(index)`: marks an existing record completed, otherwise does nothing. */
  function AfterComplete(s: SessionState, index: int): (r: SessionState)
    ensures r.loggedIn == s.loggedIn && r.userName == s.userName
    ensures |r.appointments| == |s.appointments|
    ensures forall j | 0 <= j < |s.appointments| && j != index :: r.appointments[j] == s.appointments[j]
    ensures 0 <= index < |s.appointments| ==>
              r.appointments[index] == s.appointments[index].(status := Completed)
    ensures !(0 <= index < |s.appointments|) ==> r == s
    ensures Inv(s) ==> Inv(r)
  {
    if 0 <= index < |s.appointments| then
      s.(appointments := s.appointments[index := s.appointments[index].(status := Completed)])
    else s
  }

  // ----- Dashboard counts -----

  /** `appointments.filter(a => a.status === st).length`. */
  function Count(appts: seq<Appointment>, st: Status): (n: nat)
    ensures n <= |appts|
  {
    if appts == [] then 0
    else (if appts[0].status == st then 1 else 0) + Count(appts[1..], st)
  }

  lemma {:induction false} CountsAddUp(appts: seq<Appointment>)
    ensures Count(appts, Upcoming) + Count(appts, Completed) == |appts|
  {
    if appts != [] {
      CountsAddUp(appts[1..]);
    }
  }

  lemma {:induction false} CountAppend(appts: seq<Appointment>, a: Appointment, st: Status)
    ensures Count(appts + [a], st) == Count(appts, st) + (if a.status == st then 1 else 0)
  {
    if appts != [] {
      assert (appts + [a])[1..] == appts[1..] + [a];
      CountAppend(appts[1..], a, st);
    }
  }

  /** Changing one record's status moves it from one count to the other. */
  lemma {:induction false} CountUpdate(appts: seq<Appointment>, i: nat, st': Status, st: Status)
    requires i < |appts|
    ensures Count(appts[i := appts[i].(status := st')], st) ==
            Count(appts, st) - (if appts[i].status == st then 1 else 0) + (if st' == st then 1 else 0)
  {
    var updated := appts[i := appts[i].(status := st')];
    if i > 0 {
      assert updated[1..] == appts[1..][i - 1 := appts[i].(status := st')];
      CountUpdate(appts[1..], i - 1, st', st);
    } else {
      assert updated[1..] == appts[1..];
    }
  }

  /** `updateDashboard`: the three counts and the doctor of the most recent booking. */
  function SummaryOf(appts: seq<Appointment>): (r: Summary)
    ensures r.total == |appts|
    ensures r.upcoming + r.completed == r.total
    ensures r.recentDoctor.Some? <==> appts != []
    ensures appts != [] ==> r.recentDoctor.value == appts[|appts| - 1].doctor
  {
    CountsAddUp(appts);
    Summary(|appts|, Count(appts, Upcoming), Count(appts, Completed),
            if appts == [] then None else Some(appts[|appts| - 1].doctor))
  }

  lemma SummaryAfterLogout(s: SessionState)
    ensures SummaryOf(AfterLogout(s).appointments) == Summary(0, 0, 0, None)
  {
  }

  /** A booking adds one upcoming appointment and becomes the most recent activity. */
  lemma SummaryAfterBook(s: SessionState, doctor: string, date: string, time: string, reason: string)
    requires s.loggedIn
    ensures var before, after := SummaryOf(s.appointments), SummaryOf(AfterBook(s, doctor, date, time, reason).appointments);
            after == Summary(before.total + 1, before.upcoming + 1, before.completed, Some(doctor))
  {
    var a := Appointment(doctor, date, time, reason, Upcoming);
    CountAppend(s.appointments, a, Upcoming);
    CountAppend(s.appointments, a, Completed);
  }

  /** Completing an upcoming appointment moves it from the upcoming count to the completed count. */
  lemma SummaryAfterComplete(s: SessionState, index: int)
    requires 0 <= index < |s.appointments|
    ensures var before, after := SummaryOf(s.appointments), SummaryOf(AfterComplete(s, index).appointments);
            after.total == before.total && after.recentDoctor == before.recentDoctor &&
            if s.appointments[index].status == Upcoming then
              after.upcoming == before.upcoming - 1 && after.completed == before.completed + 1
            else
              after == before
  {
    CountUpdate(s.appointments, index, Completed, Upcoming);
    CountUpdate(s.appointments, index, Completed, Completed);
  }

  // ----- Handlers in any order -----

  /** One user action, in the order the page may receive them. */
  datatype Action =
    | Login(email: string)
    | Register(name: string)
    | Logout
    | Book(doctor: string, date: string, time: string, reason: string)
    | Complete(index: int)

  /**
   * The effect of one action. The booking form can only be submitted from the
   * booking modal, which `openModal` refuses while logged out; a booking
   * attempted then changes nothing.
   */
  function Apply(s: SessionState, act: Action): (r: SessionState)
    ensures Inv(s) ==> Inv(r)
    ensures act.Book? && !s.loggedIn ==> r == s
    ensures act.Book? && s.loggedIn ==> r == AfterBook(s, act.doctor, act.date, act.time, act.reason)
  {
    match act
    case Login(email) => AfterLogin(s, email)
    case Register(name) => AfterRegister(s, name)
    case Logout => AfterLogout(s)
    case Book(doctor, date, time, reason) =>
      if Navigation.OpenModal(s.loggedIn, Navigation.BookingModal) == Navigation.BookingModal
      then AfterBook(s, doctor, date, time, reason)
      else s
    case Complete(index) => AfterComplete(s, index)
  }

  function Run(s: SessionState, acts: seq<Action>): SessionState
    decreases |acts|
  {
    if acts == [] then s else Run(Apply(s, acts[0]), acts[1..])
  }

  /** The state the page starts in: the initial values, then `updateUIForLogout`. */
  function Initial(): (r: SessionState)
    ensures !r.loggedIn && r.userName == GuestName && r.appointments == []
  {
    AfterLogout(SessionState(false, GuestName, []))
  }

  lemma {:induction false} RunKeepsInv(s: SessionState, acts: seq<Action>)
    requires Inv(s)
    ensures Inv(Run(s, acts))
    decreases |acts|
  {
    if acts != [] {
      RunKeepsInv(Apply(s, acts[0]), acts[1..]);
    }
  }

  /** Every state the page can reach holds no appointments while logged out. */
  lemma ReachableKeepsInv(acts: seq<Action>)
    ensures Inv(Run(Initial(), acts))
  {
    RunKeepsInv(Initial(), acts);
  }

  /** A run of bookings while logged in adds exactly one appointment per booking. */
  lemma {:induction false} BookingsAddUp(s: SessionState, acts: seq<Action>)
    requires s.loggedIn
    requires forall i | 0 <= i < |acts| :: acts[i].Book?
    ensures var r := Run(s, acts);
            r.loggedIn && |r.appointments| == |s.appointments| + |acts| &&
            r.appointments[..|s.appointments|] == s.appointments &&
            SummaryOf(r.appointments).total == |s.appointments| + |acts|
    decreases |acts|
  {
    if acts != [] {
      var next := Apply(s, acts[0]);
      assert next.appointments[..|s.appointments|] == s.appointments;
      BookingsAddUp(next, acts[1..]);
      var r := Run(next, acts[1..]);
      assert r.appointments[..|s.appointments|] == r.appointments[..|next.appointments|][..|s.appointments|];
    }
  }

  /** Completing the same appointment again changes nothing. */
  lemma CompleteIdempotent(s: SessionState, index: int)
    ensures AfterComplete(AfterComplete(s, index), index) == AfterComplete(s, index)
  {
  }

  /** No action other than logging out removes, moves or changes a completed record. */
  lemma {:induction false} CompletedStaysCompleted(s: SessionState, acts: seq<Action>, j: nat)
    requires forall i | 0 <= i < |acts| :: !acts[i].Logout?
    requires j < |s.appointments| && s.appointments[j].status == Completed
    ensures var r := Run(s, acts);
            j < |r.appointments| && r.appointments[j] == s.appointments[j]
    decreases |acts|
  {
    if acts != [] {
      var next := Apply(s, acts[0]);
      assert j < |next.appointments| && next.appointments[j] == s.appointments[j];
      CompletedStaysCompleted(next, acts[1..], j);
    }
  }

  /** Logging in as `local@domain` shows `local` with its first letter upper-cased. */
  lemma DisplayNameOfEmail(local: string, domain: string)
    requires '@' !in local
    ensures DisplayName(local + "@" + domain) == CapitalizeFirst(local)
  {
    var e := local + "@" + domain;
    assert e[..|local|] == local && e[|local|] == '@';
    FirstFieldUnique(e, '@', local);
  }

  /**
   * The completion callback reads the list when it fires, not when `joinCall`
   * scheduled it: after a logout, a new login and a new booking, a pending
   * callback for index 0 completes the new record.
   */
  lemma StaleCallbackCompletesNewRecord(email: string, a: Appointment, b: Appointment)
    ensures var r := Run(Initial(), [Login(email), Book(a.doctor, a.date, a.time, a.reason), Logout,
                                     Login(email), Book(b.doctor, b.date, b.time, b.reason), Complete(0)]);
            r.appointments == [b.(status := Completed)]
  {
    var acts := [Login(email), Book(a.doctor, a.date, a.time, a.reason), Logout,
                 Login(email), Book(b.doctor, b.date, b.time, b.reason), Complete(0)];
    var s1 := AfterLogin(Initial(), email);
    var s2 := AfterBook(s1, a.doctor, a.date, a.time, a.reason);
    var s3 := AfterLogout(s2);
    var s4 := AfterLogin(s3, email);
    var s5 := AfterBook(s4, b.doctor, b.date, b.time, b.reason);
    var s6 := AfterComplete(s5, 0);
    assert Run(Initial(), acts) == Run(s1, acts[1..]);
    assert Run(s1, acts[1..]) == Run(s2, acts[2..]);
    assert Run(s2, acts[2..]) == Run(s3, acts[3..]);
    assert Run(s3, acts[3..]) == Run(s4, acts[4..]);
    assert Run(s4, acts[4..]) == Run(s5, acts[5..]);
    assert Run(s5, acts[5..]) == Run(s6, []);
    assert s5.appointments == [Appointment(b.doctor, b.date, b.time, b.reason, Upcoming)];
  }

  /** The login scenario: "jane.doe@example.com" is shown as "Jane.doe". */
  lemma LoginScenario()
    ensures AfterLogin(Initial(), "jane.doe@example.com").userName == "Jane.doe"
  {
    DisplayNameOfEmail("jane.doe", "example.com");
    assert "jane.doe" + "@" + "example.com" == "jane.doe@example.com";
    assert CapitalizeFirst("jane.doe") == "Jane.doe";
  }

  /** The registration scenario: a blank name becomes "User" and the user is logged in. */
  lemma RegisterScenario()
    ensures var r := AfterRegister(Initial(), "  ");
            r.loggedIn && r.userName == DefaultName
  {
  }

  /** Booking one appointment, then completing it. */
  lemma BookThenCompleteScenario(email: string)
    ensures var s1 := Run(Initial(), [Login(email), Book("Dr. Smith", "2024-01-01", "10:00", "")]);
            var s2 := Apply(s1, Complete(0));
            SummaryOf(s1.appointments) == Summary(1, 1, 0, Some("Dr. Smith")) &&
            SummaryOf(s2.appointments) == Summary(1, 0, 1, Some("Dr. Smith"))
  {
    var acts := [Login(email), Book("Dr. Smith", "2024-01-01", "10:00", "")];
    var s0 := AfterLogin(Initial(), email);
    var s1 := AfterBook(s0, "Dr. Smith", "2024-01-01", "10:00", "");
    assert Apply(Initial(), acts[0]) == s0;
    assert Apply(s0, acts[1]) == s1;
    assert acts[1..][1..] == [];
    assert Run(Initial(), acts) == Run(s0, acts[1..]) == Run(s1, []) == s1;
    SummaryAfterBook(s0, "Dr. Smith", "2024-01-01", "10:00", "");
    SummaryAfterComplete(s1, 0);
  }

  // ----- Doctor preselection -----

  /** The index of the first option whose text includes `name`, if any. */
  function FirstMatching(options: seq<string>, name: string): (r: Option<nat>)
    ensures r.Some? ==> r.value < |options| && Includes(options[r.value], name)
    ensures r.Some? ==> forall j | 0 <= j < r.value :: !Includes(options[j], name)
    ensures r.None? ==> forall j | 0 <= j < |options| :: !Includes(options[j], name)
  {
    if options == [] then None
    else if Includes(options[0], name) then Some(0)
    else match FirstMatching(options[1..], name)
      case None => None
      case Some(i) => Some(i + 1)
  }

  /**
   * The loop in `bookWithDoctor`: scans the options in order and selects the
   * first one whose text includes `name`; the selection stays as it was when
   * none does.
   */
  method SelectDoctor(options: seq<string>, name: string, selected: int) returns (newSelected: int)
    ensures FirstMatching(options, name).Some? ==> newSelected == FirstMatching(options, name).value
    ensures FirstMatching(options, name).None? ==> newSelected == selected
  {
    newSelected := selected;
    var i := 0;
    while i < |options|
      invariant 0 <= i <= |options|
      invariant newSelected == selected
      invariant forall j | 0 <= j < i :: !Includes(options[j], name)
    {
      if Includes(options[i], name) {
        newSelected := i;
        assert FirstMatching(options, name) == Some(i) by { FirstMatchingIsFirst(options, name, i); }
        return;
      }
      i := i + 1;
    }
  }

  /** The first match is the first index whose option includes the name and is preceded by none. */
  lemma FirstMatchingIsFirst(options: seq<string>, name: string, i: nat)
    requires i < |options| && Includes(options[i], name)
    requires forall j | 0 <= j < i :: !Includes(options[j], name)
    ensures FirstMatching(options, name) == Some(i)
  {
  }

  // ----- The page's state -----

  /** The three variables the page keeps for the whole session. */
  class Session {
    var loggedIn: bool
    var userName: string
    var appointments: seq<Appointment>

    function State(): SessionState
      reads this
    {
      SessionState(loggedIn, userName, appointments)
    }

    /** The figures `updateDashboard` shows for the current list. */
    function Dashboard(): (r: Summary)
      reads this
      ensures r == SummaryOf(appointments)
      ensures r.upcoming + r.completed == r.total == |appointments|
    {
      SummaryOf(appointments)
    }

    ghost predicate Valid()
      reads this
    {
      Inv(State())
    }

    /** The page starts logged out, as "Guest", with no appointments. */
    constructor ()
      ensures Valid() && State() == Initial()
    {
      loggedIn, userName, appointments := false, GuestName, [];
    }

    method Login(email: string)
      modifies this
      ensures Valid() && State() == AfterLogin(old(State()), email)
    {
      var name := FirstField(email, '@');
      userName := CapitalizeFirst(name);
      loggedIn := true;
    }

    method Register(name: string)
      modifies this
      ensures Valid() && State() == AfterRegister(old(State()), name)
    {
      userName := name;
      if Trim(userName) == "" {
        userName := DefaultName;
      }
      loggedIn := true;
    }

    method Logout()
      modifies this
      ensures Valid() && State() == AfterLogout(old(State()))
    {
      loggedIn := false;
      userName := GuestName;
      appointments := [];
    }

    method Book(doctor: string, date: string, time: string, reason: string) returns (a: Appointment)
      requires loggedIn
      modifies this
      ensures a == Appointment(doctor, date, time, reason, Upcoming)
      ensures Valid() && State() == AfterBook(old(State()), doctor, date, time, reason)
    {
      a := Appointment(doctor, date, time, reason, Upcoming);
      appointments := appointments + [a];
    }

    method Complete(index: int)
      requires Valid()
      modifies this
      ensures Valid() && State() == AfterComplete(old(State()), index)
    {
      if 0 <= index < |appointments| {
        appointments := appointments[index := appointments[index].(status := Completed)];
      }
    }

    /** `bookWithDoctor(name)`: the new selection of the doctor list and the modal that opens. */
    method BookWithDoctor(options: seq<string>, selected: int, name: string) returns (newSelected: int, shown: string)
      ensures !loggedIn ==> newSelected == selected && shown == Navigation.LoginModal
      ensures loggedIn && FirstMatching(options, name).Some? ==> newSelected == FirstMatching(options, name).value
      ensures loggedIn && FirstMatching(options, name).None? ==> newSelected == selected
      ensures loggedIn ==> shown == Navigation.BookingModal
    {
      if !loggedIn {
        newSelected, shown := selected, Navigation.OpenModal(loggedIn, Navigation.LoginModal);
        return;
      }
      newSelected := SelectDoctor(options, name, selected);
      shown := Navigation.OpenModal(loggedIn, Navigation.BookingModal);
    }
  }
}
