/** The port state machines (fsm.c). */
module Fsm {

  datatype PortState =
    | INITIALIZING | FAULTY | DISABLED | LISTENING | PRE_MASTER
    | MASTER | PASSIVE | UNCALIBRATED | SLAVE | GRAND_MASTER

  datatype Event =
    | NONE | POWERUP | INITIALIZE
    | DESIGNATED_ENABLED | DESIGNATED_DISABLED
    | FAULT_CLEARED | FAULT_DETECTED
    | STATE_DECISION_EVENT
    | QUALIFICATION_TIMEOUT_EXPIRES | ANNOUNCE_RECEIPT_TIMEOUT_EXPIRES
    | SYNCHRONIZATION_FAULT | MASTER_CLOCK_SELECTED
    | INIT_COMPLETE
    | RS_MASTER | RS_GRAND_MASTER | RS_SLAVE | RS_PASSIVE

  /** The machine of a boundary or ordinary clock port. */
  function PtpFsm(state: PortState, event: Event, mdiff: bool): PortState {
    if event == INITIALIZE || event == POWERUP then INITIALIZING
    else match state
      case INITIALIZING =>
        (match event
         case FAULT_DETECTED => FAULTY
         case INIT_COMPLETE => LISTENING
         case _ => state)
      case FAULTY =>
        (match event
         case DESIGNATED_DISABLED => DISABLED
         case FAULT_CLEARED => INITIALIZING
         case _ => state)
      case DISABLED =>
        if event == DESIGNATED_ENABLED then INITIALIZING else state
      case LISTENING =>
        (match event
         case DESIGNATED_DISABLED => DISABLED
         case FAULT_DETECTED => FAULTY
         case ANNOUNCE_RECEIPT_TIMEOUT_EXPIRES => MASTER
         case RS_MASTER => PRE_MASTER
         case RS_GRAND_MASTER => GRAND_MASTER
         case RS_SLAVE => UNCALIBRATED
         case RS_PASSIVE => PASSIVE
         case _ => state)
      case PRE_MASTER =>
        (match event
         case DESIGNATED_DISABLED => DISABLED
         case FAULT_DETECTED => FAULTY
         case QUALIFICATION_TIMEOUT_EXPIRES => MASTER
         case RS_SLAVE => UNCALIBRATED
         case RS_PASSIVE => PASSIVE
         case _ => state)
      case MASTER | GRAND_MASTER =>
        (match event
         case DESIGNATED_DISABLED => DISABLED
         case FAULT_DETECTED => FAULTY
         case RS_SLAVE => UNCALIBRATED
         case RS_PASSIVE => PASSIVE
         case _ => state)
      case PASSIVE =>
        (match event
         case DESIGNATED_DISABLED => DISABLED
         case FAULT_DETECTED => FAULTY
         case ANNOUNCE_RECEIPT_TIMEOUT_EXPIRES => MASTER
         case RS_MASTER => PRE_MASTER
         case RS_GRAND_MASTER => GRAND_MASTER
         case RS_SLAVE => UNCALIBRATED
         case _ => state)
      case UNCALIBRATED =>
        (match event
         case DESIGNATED_DISABLED => DISABLED
         case FAULT_DETECTED => FAULTY
         case ANNOUNCE_RECEIPT_TIMEOUT_EXPIRES => MASTER
         case MASTER_CLOCK_SELECTED => SLAVE
         case RS_MASTER => PRE_MASTER
         case RS_GRAND_MASTER => GRAND_MASTER
         case RS_SLAVE => UNCALIBRATED
         case RS_PASSIVE => PASSIVE
         case _ => state)
      case SLAVE =>
        (match event
         case DESIGNATED_DISABLED => DISABLED
         case FAULT_DETECTED => FAULTY
         case ANNOUNCE_RECEIPT_TIMEOUT_EXPIRES => MASTER
         case SYNCHRONIZATION_FAULT => UNCALIBRATED
         case RS_MASTER => PRE_MASTER
         case RS_GRAND_MASTER => GRAND_MASTER
         case RS_SLAVE => if mdiff then UNCALIBRATED else state
         case RS_PASSIVE => PASSIVE
         case _ => state)
  }

  /** The machine of a slave only clock port. */
  function PtpSlaveFsm(state: PortState, event: Event, mdiff: bool): PortState {
    if event == INITIALIZE || event == POWERUP then INITIALIZING
    else match state
      case INITIALIZING =>
        (match event
         case FAULT_DETECTED => FAULTY
         case INIT_COMPLETE => LISTENING
         case _ => state)
      case FAULTY =>
        (match event
         case DESIGNATED_DISABLED => DISABLED
         case FAULT_CLEARED => INITIALIZING
         case _ => state)
      case DISABLED =>
        if event == DESIGNATED_ENABLED then INITIALIZING else state
      case LISTENING =>
        (match event
         case DESIGNATED_DISABLED => DISABLED
         case FAULT_DETECTED => FAULTY
         case ANNOUNCE_RECEIPT_TIMEOUT_EXPIRES | RS_MASTER | RS_GRAND_MASTER | RS_PASSIVE => LISTENING
         case RS_SLAVE => UNCALIBRATED
         case _ => state)
      case UNCALIBRATED =>
        (match event
         case DESIGNATED_DISABLED => DISABLED
         case FAULT_DETECTED => FAULTY
         case ANNOUNCE_RECEIPT_TIMEOUT_EXPIRES | RS_MASTER | RS_GRAND_MASTER | RS_PASSIVE => LISTENING
         case MASTER_CLOCK_SELECTED => SLAVE
         case _ => state)
      case SLAVE =>
        (match event
         case DESIGNATED_DISABLED => DISABLED
         case FAULT_DETECTED => FAULTY
         case ANNOUNCE_RECEIPT_TIMEOUT_EXPIRES | RS_MASTER | RS_GRAND_MASTER | RS_PASSIVE => LISTENING
         case SYNCHRONIZATION_FAULT => UNCALIBRATED
         case RS_SLAVE => if mdiff then UNCALIBRATED else state
         case _ => state)
      case _ => state
  }

  // ---------------------------------------------------------------------
  // What leads where
  // ---------------------------------------------------------------------

  predicate Transmitting(s: PortState) {
    s == MASTER || s == GRAND_MASTER
  }

  predicate Waiting(s: PortState) {
    s == LISTENING || s == PASSIVE || s == UNCALIBRATED || s == SLAVE
  }

  /** The states a slave only port can be in. */
  predicate SlaveOnlyState(s: PortState) {
    s == LISTENING || s == UNCALIBRATED || s == SLAVE || !Enabled(s)
  }

  predicate Enabled(s: PortState) {
    s != INITIALIZING && s != FAULTY && s != DISABLED
  }

  /** The slave only machine is the other one, sent back to listening wherever
      that one would transmit, prepare to, or become passive. */
  lemma SlaveMachineListens(s: PortState, event: Event, mdiff: bool)
    requires SlaveOnlyState(s)
    ensures var next := PtpFsm(s, event, mdiff);
            PtpSlaveFsm(s, event, mdiff) == if SlaveOnlyState(next) then next else LISTENING
  {
  }

  /** A port becomes a slave only when its master was selected, and begins to
      transmit only by order, after a qualification time, or when it heard no
      Announce for too long. */
  lemma EntersExactly(s: PortState, event: Event, mdiff: bool)
    ensures var next := PtpFsm(s, event, mdiff);
            && (next == SLAVE && s != SLAVE <==> s == UNCALIBRATED && event == MASTER_CLOCK_SELECTED)
            && (Transmitting(next) && !Transmitting(s) <==>
                  || (Waiting(s) && (event == RS_GRAND_MASTER || event == ANNOUNCE_RECEIPT_TIMEOUT_EXPIRES))
                  || (s == PRE_MASTER && event == QUALIFICATION_TIMEOUT_EXPIRES))
            && (Enabled(s) ==> (!Enabled(next) <==>
                  event == DESIGNATED_DISABLED || event == FAULT_DETECTED || event == INITIALIZE || event == POWERUP))
  {
  }

  /** A fault takes every port but a disabled one out of operation; a faulty port is
      left by clearing it, disabling it, or a restart. */
  lemma FaultyExactly(s: PortState, event: Event, mdiff: bool)
    ensures PtpFsm(s, event, mdiff) == FAULTY <==>
              || (event == FAULT_DETECTED && s != DISABLED)
              || (s == FAULTY && event != INITIALIZE && event != POWERUP && event != FAULT_CLEARED && event != DESIGNATED_DISABLED)
  {
  }

  /** Every port but one that is being initialized can be disabled; then it is left by
      enabling it or a restart only. */
  lemma DisabledExactly(s: PortState, event: Event, mdiff: bool)
    ensures PtpFsm(s, event, mdiff) == DISABLED <==>
              || (event == DESIGNATED_DISABLED && s != INITIALIZING)
              || (s == DISABLED && event != INITIALIZE && event != POWERUP && event != DESIGNATED_ENABLED)
  {
  }

  /** A restart, or the end of what kept the port out of operation, leads to
      INITIALIZING, which the outcome of the initialization ends. */
  lemma InitializingExactly(s: PortState, event: Event, mdiff: bool)
    ensures PtpFsm(s, event, mdiff) == INITIALIZING <==>
              || event == INITIALIZE || event == POWERUP
              || (s == FAULTY && event == FAULT_CLEARED) || (s == DISABLED && event == DESIGNATED_ENABLED)
              || (s == INITIALIZING && event != INIT_COMPLETE && event != FAULT_DETECTED)
  {
  }

  /** The events that take a port in operation out of it, or restart it. */
  predicate Halts(event: Event) {
    || event == DESIGNATED_DISABLED || event == FAULT_DETECTED
    || event == INITIALIZE || event == POWERUP
  }

  predicate Decides(event: Event) {
    event == RS_MASTER || event == RS_GRAND_MASTER || event == RS_SLAVE || event == RS_PASSIVE
  }

  /** Where a port in operation goes by a recommendation: a port that transmits goes on
      with MASTER and GRAND_MASTER, every other one prepares to be a master, or is the
      grandmaster at once; one that prepares goes on with either; a slave stays one
      unless its master is a new one. */
  lemma RecommendationsExactly(s: PortState, event: Event, mdiff: bool)
    requires Enabled(s) && Decides(event)
    ensures var next := PtpFsm(s, event, mdiff);
            if event == RS_PASSIVE then next == PASSIVE
            else if event == RS_SLAVE then next == if s == SLAVE && !mdiff then SLAVE else UNCALIBRATED
            else if Transmitting(s) || s == PRE_MASTER then next == s
            else next == if event == RS_MASTER then PRE_MASTER else GRAND_MASTER
  {
  }

  /** Where it goes by the other events, if it goes on working. */
  lemma OtherEventsExactly(s: PortState, event: Event, mdiff: bool)
    requires Enabled(s) && !Decides(event) && !Halts(event)
    ensures var next := PtpFsm(s, event, mdiff);
            && (next != s <==>
                  || (s == PRE_MASTER && event == QUALIFICATION_TIMEOUT_EXPIRES)
                  || (Waiting(s) && event == ANNOUNCE_RECEIPT_TIMEOUT_EXPIRES)
                  || (s == UNCALIBRATED && event == MASTER_CLOCK_SELECTED)
                  || (s == SLAVE && event == SYNCHRONIZATION_FAULT))
            && (event == QUALIFICATION_TIMEOUT_EXPIRES || event == ANNOUNCE_RECEIPT_TIMEOUT_EXPIRES ==> next == s || next == MASTER)
            && (event == MASTER_CLOCK_SELECTED ==> next == s || next == SLAVE)
            && (event == SYNCHRONIZATION_FAULT ==> next == s || next == UNCALIBRATED)
  {
  }

  /** A port begins to work by a completed initialization only, and listens first. */
  lemma StartsListening(s: PortState, event: Event, mdiff: bool)
    requires !Enabled(s) && Enabled(PtpFsm(s, event, mdiff))
    ensures s == INITIALIZING && event == INIT_COMPLETE && PtpFsm(s, event, mdiff) == LISTENING
  {
  }

  lemma CompletedListens(mdiff: bool)
    ensures PtpFsm(INITIALIZING, INIT_COMPLETE, mdiff) == LISTENING
  {
  }
}
