/** The hidden entrance to the admin panel: three clicks on the page header
    within half a second of each other open it. Each click and the firing
    of the reset timer are handled one at a time, each after the previous
    one's state updates have been applied. */
module CharacterSelection {

  /** Clicks needed to open the panel, and the reset delay in ms. */
  const ClicksToOpen: nat := 3
  const ResetDelay: nat := 500

  class HeaderClicks {
    /** `clickCount`. */
    var clickCount: nat
    /** `clickTimer` holds a reset that has neither fired nor been cleared. */
    var resetPending: bool
    /** `showAdminPanel`. */
    var showAdminPanel: bool
    /** How many times the panel has been opened. */
    var openings: nat

    /** Between events, fewer than three clicks are counted, and a non-zero
        count always has a reset on its way. */
    predicate Valid()
      reads this
    {
      clickCount < ClicksToOpen && (clickCount > 0 ==> resetPending)
    }

    constructor ()
      ensures Valid()
      ensures clickCount == 0 && !resetPending && !showAdminPanel && openings == 0
    {
      clickCount := 0;
      resetPending := false;
      showAdminPanel := false;
      openings := 0;
    }

    /** `handleHeaderClick`: counts the click and cancels the pending reset;
        the third click opens the panel and starts over with no timer, an
        earlier one schedules a reset in 500 ms. */
    method HandleHeaderClick()
      requires Valid()
      modifies this
      ensures Valid()
      ensures old(clickCount) + 1 >= ClicksToOpen ==>
        showAdminPanel && openings == old(openings) + 1 && clickCount == 0 && !resetPending
      ensures old(clickCount) + 1 < ClicksToOpen ==>
        showAdminPanel == old(showAdminPanel) && openings == old(openings)
        && clickCount == old(clickCount) + 1 && resetPending
      ensures clickCount == Run(old(clickCount), [Click]).0
      ensures openings == old(openings) + Run(old(clickCount), [Click]).1
    {
      var previous := clickCount;
      clickCount := previous + 1;
      resetPending := false;
      if previous + 1 >= ClicksToOpen {
        showAdminPanel := true;
        openings := openings + 1;
        clickCount := 0;
      } else {
        resetPending := true;
      }
    }

    /** The reset timer fires: the count returns to zero and the panel is
        left as it was. A cleared timer never fires. */
    method TimerFires()
      requires Valid()
      modifies this
      ensures Valid()
      ensures old(resetPending) ==> clickCount == 0 && !resetPending
      ensures !old(resetPending) ==> clickCount == old(clickCount) && !resetPending
      ensures showAdminPanel == old(showAdminPanel) && openings == old(openings)
      ensures clickCount == Run(old(clickCount), [Timeout]).0
    {
      if resetPending {
        clickCount := 0;
        resetPending := false;
      }
    }
  }

  /** An input to the header: a click, or the reset timer firing. */
  datatype Event = Click | Timeout

  /** The count after a sequence of events from a count of `start`, and
      how many times the panel opened on the way; a timeout with no pending
      reset does nothing, and a timeout with one clears the count. */
  function Run(start: nat, events: seq<Event>): (r: (nat, nat))
    requires start < ClicksToOpen
    ensures r.0 < ClicksToOpen
    ensures r.1 <= |events|
    decreases |events|
  {
    if |events| == 0 then (start, 0)
    else
      var next := match events[0]
        case Click => if start + 1 >= ClicksToOpen then 0 else start + 1
        case Timeout => 0;
      var rest := Run(next, events[1..]);
      (rest.0, rest.1 + (if events[0] == Click && start + 1 >= ClicksToOpen then 1 else 0))
  }

  /** Three clicks with no timeout between them open the panel exactly
      once, from the idle state. */
  lemma ThreeClicksOpen()
    ensures Run(0, [Click, Click, Click]) == (0, 1)
  {
  }

  /** A timeout between clicks throws the earlier clicks away: click,
      click, timeout, click leaves one click counted and the panel shut. */
  lemma TimeoutForgets()
    ensures Run(0, [Click, Click, Timeout, Click]) == (1, 0)
  {
  }

  /** How many of the events are clicks. */
  function Clicks(events: seq<Event>): (n: nat)
    ensures n <= |events|
  {
    if |events| == 0 then 0 else (if events[0] == Click then 1 else 0) + Clicks(events[1..])
  }

  /** The panel opens no more often than once per three clicks, and the
      clicks left counted at the end are clicks too. */
  lemma {:induction false} OpensAtMostEveryThird(start: nat, events: seq<Event>)
    requires start < ClicksToOpen
    ensures var r := Run(start, events);
      ClicksToOpen * r.1 + r.0 <= start + Clicks(events)
    decreases |events|
  {
    if |events| > 0 {
      var next := match events[0]
        case Click => if start + 1 >= ClicksToOpen then 0 else start + 1
        case Timeout => 0;
      OpensAtMostEveryThird(next, events[1..]);
    }
  }
}
