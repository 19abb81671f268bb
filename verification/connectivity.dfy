/**
 * The network-status logic of the app component: each connectivity event
 * supplies the result of an IP lookup, which is compared with one hard-coded
 * reference address; the displayed status changes and a notification is sent
 * according to the rules below.
 */
module Connectivity {
  import opened Wrappers

  /** The reference address of the office network (a constant in the app). */
  const SavedIP: string := "1.238.113.244"

  /** A notification handed to `sendNotification`. */
  datatype Notice = Notice(title: string, body: string)

  const Connected: Notice :=
    Notice("✅ Wi-Fi 연결 됨", "모빈과 연결되었습니다. Flex에서 출근을 눌러주세요")
  const Disconnected: Notice :=
    Notice("❌ Wi-Fi 연결 끊김", "모빈에서 연결이 끊겼습니다. Flex에서 퇴근을 눌러주세요")

  /** The notice that announces a status. */
  function NoticeFor(online: bool): Notice
  {
    if online then Connected else Disconnected
  }

  /** The browser's tri-state notification permission. */
  datatype Permission = Default | Granted | Denied

  /** The gate of `sendNotification`: permission granted and a service worker present. */
  predicate CanDeliver(permission: Permission, hasServiceWorker: bool)
  {
    permission == Granted && hasServiceWorker
  }

  /**
   * A lookup result the handler treats as a failure (`!ip`): no address at all
   * (the lookup threw) or an empty one.
   */
  predicate ProbeFailed(ip: Option<string>)
  {
    ip.None? || ip.value == ""
  }

  /** The lookup returned the reference address. */
  predicate IsHome(ip: Option<string>)
  {
    ip == Some(SavedIP)
  }

  /** The status after one event and the notices sent during it, in order. */
  datatype Outcome = Outcome(online: bool, notices: seq<Notice>)

  /**
   * One run of the network-change handler from status `online` with lookup
   * result `ip`. The reference address is a non-empty constant, so the
   * handler's guard on it is always taken.
   */
  function Transition(online: bool, ip: Option<string>): (o: Outcome)
    ensures o.online <==> IsHome(ip)
    ensures o.notices ==
              if ProbeFailed(ip) || o.online != online then [NoticeFor(o.online)] else []
  {
    if ProbeFailed(ip) then Outcome(false, [Disconnected])
    else if ip.value != SavedIP then
      if online then Outcome(false, [Disconnected]) else Outcome(online, [])
    else
      if !online then Outcome(true, [Connected]) else Outcome(online, [])
  }

  /** A sequence of events processed one after another from status `online`. */
  function Run(online: bool, probes: seq<Option<string>>): (o: Outcome)
    decreases |probes|
  {
    if probes == [] then Outcome(online, [])
    else
      var first := Transition(online, probes[0]);
      var rest := Run(first.online, probes[1..]);
      Outcome(rest.online, first.notices + rest.notices)
  }

  /** No two consecutive "connected" notices. */
  ghost predicate NoRepeatedConnect(log: seq<Notice>)
  {
    forall i :: 0 < i < |log| ==> log[i - 1] == Connected ==> log[i] != Connected
  }

  /**
   * The displayed status agrees with the notification history: online exactly
   * when the last notice sent announced a connection, and a connection is never
   * announced twice without a disconnection in between.
   */
  ghost predicate LogAgrees(online: bool, log: seq<Notice>)
  {
    (online <==> |log| > 0 && log[|log| - 1] == Connected) && NoRepeatedConnect(log)
  }

  lemma TransitionPreservesAgreement(online: bool, log: seq<Notice>, ip: Option<string>)
    requires LogAgrees(online, log)
    ensures LogAgrees(Transition(online, ip).online, log + Transition(online, ip).notices)
  {
  }

  /** Processing a sequence of events keeps the status in agreement with the history. */
  lemma {:induction false} RunPreservesAgreement(online: bool, log: seq<Notice>, probes: seq<Option<string>>)
    requires LogAgrees(online, log)
    ensures LogAgrees(Run(online, probes).online, log + Run(online, probes).notices)
    decreases |probes|
  {
    if probes != [] {
      var first := Transition(online, probes[0]);
      TransitionPreservesAgreement(online, log, probes[0]);
      RunPreservesAgreement(first.online, log + first.notices, probes[1..]);
      assert log + first.notices + Run(first.online, probes[1..]).notices
          == log + Run(online, probes).notices;
    }
  }

  /** After any non-empty sequence of events the status reflects only the last lookup. */
  lemma {:induction false} RunFinalStatus(online: bool, probes: seq<Option<string>>)
    requires probes != []
    ensures Run(online, probes).online <==> IsHome(probes[|probes| - 1])
    decreases |probes|
  {
    if |probes| > 1 {
      RunFinalStatus(Transition(online, probes[0]).online, probes[1..]);
    }
  }

  /**
   * Failed lookups are never deduplicated: each one sends a "disconnected"
   * notice, whatever the status before it.
   */
  lemma {:induction false} RepeatedFailuresNotifyEachTime(online: bool, probes: seq<Option<string>>)
    requires forall i :: 0 <= i < |probes| ==> ProbeFailed(probes[i])
    ensures |Run(online, probes).notices| == |probes|
    ensures forall i :: 0 <= i < |probes| ==> Run(online, probes).notices[i] == Disconnected
    ensures probes != [] ==> !Run(online, probes).online
    decreases |probes|
  {
    if probes != [] {
      RepeatedFailuresNotifyEachTime(false, probes[1..]);
    }
  }

  /**
   * Successful lookups are deduplicated: a run of one and the same address
   * sends at most one notice, and none when the status already matched it.
   */
  lemma {:induction false} SameAddressNotifiesAtMostOnce(online: bool, ip: string, probes: seq<Option<string>>)
    requires ip != ""
    requires forall i :: 0 <= i < |probes| ==> probes[i] == Some(ip)
    ensures |Run(online, probes).notices| <= 1
    ensures online == IsHome(Some(ip)) ==> Run(online, probes).notices == []
    decreases |probes|
  {
    if probes != [] {
      var next := Transition(online, probes[0]).online;
      SameAddressNotifiesAtMostOnce(next, ip, probes[1..]);
    }
  }

  /** The same successful address twice in a row: the second event is silent. */
  lemma SecondIdenticalLookupIsSilent(online: bool, ip: Option<string>)
    requires !ProbeFailed(ip)
    ensures Transition(Transition(online, ip).online, ip).notices == []
    ensures Transition(Transition(online, ip).online, ip).online == Transition(online, ip).online
  {
  }

  /** From the initial (offline) status the first matching lookup notifies, a mismatching one does not. */
  lemma FirstLookupFromStart(ip: Option<string>)
    requires !ProbeFailed(ip)
    ensures IsHome(ip) ==> Transition(false, ip) == Outcome(true, [Connected])
    ensures !IsHome(ip) ==> Transition(false, ip) == Outcome(false, [])
  {
  }

  /** Home, another network, home again: three notices, connected, disconnected, connected. */
  lemma HomeAwayHome(other: string)
    requires other != "" && other != SavedIP
    ensures Run(false, [Some(SavedIP), Some(other), Some(SavedIP)])
         == Outcome(true, [Connected, Disconnected, Connected])
  {
    var probes := [Some(SavedIP), Some(other), Some(SavedIP)];
    assert probes[1..] == [Some(other), Some(SavedIP)];
    assert probes[1..][1..] == [Some(SavedIP)];
    assert Run(false, [Some(SavedIP)]) == Outcome(true, [Connected]);
    assert Run(true, [Some(other), Some(SavedIP)]) == Outcome(true, [Disconnected, Connected]);
  }

  /**
   * The app component's network state: the status it displays, every notice
   * the handler asked to send, and the notices that passed the delivery gate.
   */
  class NetworkMonitor {
    var isOnline: bool
    var sent: seq<Notice>
    var shown: seq<Notice>

    ghost predicate Valid()
      reads this
    {
      LogAgrees(isOnline, sent)
    }

    /** The component mounts offline, with nothing sent. */
    constructor ()
      ensures Valid()
      ensures !isOnline && sent == [] && shown == []
    {
      isOnline := false;
      sent := [];
      shown := [];
    }

    /**
     * `sendNotification`: the notice is shown only with permission granted and
     * a service worker available; otherwise it is dropped without an error.
     * Only `Step` calls it; on its own it does not keep `Valid()`.
     */
    method SendNotification(n: Notice, permission: Permission, hasServiceWorker: bool)
      modifies this`sent, this`shown
      ensures sent == old(sent) + [n]
      ensures shown == old(shown) + if CanDeliver(permission, hasServiceWorker) then [n] else []
    {
      sent := sent + [n];
      if CanDeliver(permission, hasServiceWorker) {
        shown := shown + [n];
      }
    }

    /** `handleNetworkChange` for one event whose lookup produced `ip`. */
    method Step(ip: Option<string>, permission: Permission, hasServiceWorker: bool)
      requires Valid()
      modifies this
      ensures Valid()
      ensures isOnline == Transition(old(isOnline), ip).online
      ensures sent == old(sent) + Transition(old(isOnline), ip).notices
      ensures shown == old(shown) +
                if CanDeliver(permission, hasServiceWorker) then Transition(old(isOnline), ip).notices else []
    {
      TransitionPreservesAgreement(isOnline, sent, ip);
      if ip.None? || ip.value == "" {
        isOnline := false;
        SendNotification(Disconnected, permission, hasServiceWorker);
        return;
      }
      if ip.value != SavedIP {
        if isOnline {
          isOnline := false;
          SendNotification(Disconnected, permission, hasServiceWorker);
        }
      } else {
        if !isOnline {
          isOnline := true;
          SendNotification(Connected, permission, hasServiceWorker);
        }
      }
    }
  }
}
