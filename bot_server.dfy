/**
 * The control server as its source writes it: module-level variables reassigned step by step by
 * the session's event handler, the request handlers and `detenerSenales`. `Bot` holds those
 * variables as fields, together with the runtime's table of live intervals and the logs of what
 * was asked of the messaging session and the document store. Each method follows its handler
 * branch by branch, and its postcondition equates the new state with the matching function of
 * `BotSpec` applied to the old one, so every property proved there holds of the object.
 */
module BotServer {
  import opened Options
  import opened BotSpec

  class Bot {
    var status: Status
    var sock: bool
    var qrCode: Option<string>
    var groupId: Option<string>
    var signalInterval: Option<nat>
    var timers: map<nat, Job>
    var nextTimer: nat
    var sent: seq<Delivery>
    var signals: seq<Signal>
    var configWrites: seq<Option<string>>
    var snapshots: nat
    var logouts: nat
    var sessionsOpened: nat
    var pendingReconnects: nat

    /** The object's state as a value. */
    function Model(): State
      reads this
    {
      State(status, sock, qrCode, groupId, signalInterval, timers, nextTimer,
            sent, signals, configWrites, snapshots, logouts, sessionsOpened, pendingReconnects)
    }

    ghost predicate Valid()
      reads this
    {
      Inv(Model())
    }

    /** The variables as the server starts: disconnected, no socket, no code, no group, no interval. */
    constructor ()
      ensures Valid()
      ensures Model() == Initial()
    {
      status := Desconectado;
      sock := false;
      qrCode := None;
      groupId := None;
      signalInterval := None;
      timers := map[];
      nextTimer := 0;
      sent := [];
      signals := [];
      configWrites := [];
      snapshots := 0;
      logouts := 0;
      sessionsOpened := 0;
      pendingReconnects := 0;
    }

    /** `conectarWhatsApp`: a new socket replaces the old one; its events arrive through `HandleUpdate`. */
    method OpenSession()
      requires Valid()
      modifies this`sock, this`sessionsOpened
      ensures Valid()
      ensures Model() == BotSpec.OpenSession(old(Model()))
      ensures sock && sessionsOpened == old(sessionsOpened) + 1
    {
      sock := true;
      sessionsOpened := sessionsOpened + 1;
    }

    /** The `connection.update` handler: the `qr`, `close` and `open` branches, in that order. */
    method HandleUpdate(update: Update)
      requires Valid()
      modifies this`status, this`qrCode, this`snapshots, this`pendingReconnects
      ensures Valid()
      ensures Model() == BotSpec.HandleUpdate(old(Model()), update)
      ensures update.connection.Close? ==> status == Desconectado && qrCode.None?
      ensures update.connection.Open? ==> status == Conectado && qrCode.None?
    {
      if Truthy(update.qr) {
        qrCode := update.qr;
        status := EsperandoQr;
      }
      if update.connection.Close? {
        status := Desconectado;
        qrCode := None;
        if ShouldReconnect(update.connection.statusCode) {
          pendingReconnects := pendingReconnects + 1;
        }
      }
      if update.connection.Open? {
        status := Conectado;
        qrCode := None;
        snapshots := snapshots + 1;
      }
    }

    /** A scheduled reconnect fires and calls `conectarWhatsApp`, unguarded. */
    method FireReconnect()
      requires Valid()
      modifies this`sock, this`sessionsOpened, this`pendingReconnects
      ensures Valid()
      ensures Model() == BotSpec.FireReconnect(old(Model()))
    {
      if pendingReconnects > 0 {
        pendingReconnects := pendingReconnects - 1;
        OpenSession();
      }
    }

    /** `POST /api/conectar`. */
    method Connect() returns (outcome: Outcome)
      requires Valid()
      modifies this`sock, this`sessionsOpened
      ensures Valid()
      ensures Model() == BotSpec.Connect(old(Model())).next
      ensures outcome == BotSpec.Connect(old(Model())).outcome
      ensures outcome == AlreadyConnected <==> old(status) == Conectado
    {
      if status == Conectado {
        return AlreadyConnected;
      }
      OpenSession();
      outcome := Ok;
    }

    /** `detenerSenales`: clear the held interval, if any. It needs no invariant: `Disconnect` calls it mid-update. */
    method StopSignals()
      modifies this`signalInterval, this`timers
      ensures Model() == BotSpec.StopSignals(old(Model()))
      ensures signalInterval.None?
    {
      if signalInterval.Some? {
        timers := timers - {signalInterval.value};
        signalInterval := None;
      }
    }

    /** `POST /api/desconectar`; `logoutResolves` is whether the session's `logout()` resolves. */
    method Disconnect(logoutResolves: bool) returns (outcome: Outcome)
      requires Valid()
      modifies this`sock, this`status, this`logouts, this`signalInterval, this`timers
      ensures Valid()
      ensures Model() == BotSpec.Disconnect(old(Model()), logoutResolves).next
      ensures outcome == BotSpec.Disconnect(old(Model()), logoutResolves).outcome
      ensures logouts == old(logouts) + (if old(sock) then 1 else 0)
      ensures outcome == Ok ==> !sock && signalInterval.None? && timers == map[]
      ensures outcome == LogoutFailed ==> sock && signalInterval == old(signalInterval) && timers == old(timers)
    {
      if sock {
        logouts := logouts + 1;
        if !logoutResolves {
          return LogoutFailed;
        }
        sock := false;
        status := Desconectado;
      }
      StopSignals();
      assert timers.Keys == {};
      outcome := Ok;
    }

    /** `GET /api/grupos`: the groups the session reports, to a ready bot only. */
    method ListGroups(chats: seq<Group>) returns (outcome: Outcome, groups: seq<Group>)
      ensures outcome == Ok <==> sock && status == Conectado
      ensures outcome != Ok ==> outcome == NotConnected && groups == []
      ensures outcome == Ok ==> groups == chats
      ensures Listing(outcome, groups) == BotSpec.ListGroups(Model(), chats)
    {
      if !sock || status != Conectado {
        return NotConnected, [];
      }
      outcome, groups := Ok, chats;
    }

    /** `POST /api/grupo`. */
    method SelectGroup(id: Option<string>) returns (outcome: Outcome)
      requires Valid()
      modifies this`groupId, this`configWrites
      ensures Valid()
      ensures Model() == BotSpec.SelectGroup(old(Model()), id).next
      ensures outcome == Ok && groupId == id
    {
      groupId := id;
      configWrites := configWrites + [groupId];
      outcome := Ok;
    }

    /** `POST /api/enviar`. */
    method Send(message: string) returns (outcome: Outcome)
      requires Valid()
      modifies this`sent, this`signals
      ensures Valid()
      ensures Model() == BotSpec.Send(old(Model()), message).next
      ensures outcome == BotSpec.Send(old(Model()), message).outcome
      ensures outcome == Ok <==> old(sock) && old(status) == Conectado && Truthy(old(groupId))
    {
      if !sock || status != Conectado {
        return NotConnected;
      }
      if !Truthy(groupId) {
        return NoGroup;
      }
      sent := sent + [Delivery(groupId, message)];
      signals := signals + [Signal(message, Manual)];
      outcome := Ok;
    }

    /** `POST /api/automatico/iniciar`: clear the held interval, then start and hold a new one. */
    method StartSignals(message: string, minutes: Option<int>) returns (outcome: Outcome)
      requires Valid()
      modifies this`signalInterval, this`timers, this`nextTimer
      ensures Valid()
      ensures Model() == BotSpec.StartSignals(old(Model()), message, minutes).next
      ensures outcome == BotSpec.StartSignals(old(Model()), message, minutes).outcome
      ensures outcome == Ok ==> timers == map[old(nextTimer) := Job(message, PeriodMs(minutes))]
    {
      if !sock || status != Conectado {
        return NotConnected;
      }
      if !Truthy(groupId) {
        return NoGroup;
      }
      StopSignals();
      assert timers == map[];
      var handle := nextTimer;
      timers := timers[handle := Job(message, PeriodMs(minutes))];
      nextTimer := nextTimer + 1;
      signalInterval := Some(handle);
      outcome := Ok;
    }

    /** `POST /api/automatico/detener`: always succeeds. */
    method StopRecurring() returns (outcome: Outcome)
      requires Valid()
      modifies this`signalInterval, this`timers
      ensures Valid()
      ensures Model() == BotSpec.StopSignals(old(Model()))
      ensures outcome == Ok && timers == map[]
    {
      StopSignals();
      assert timers.Keys == {};
      outcome := Ok;
    }

    /** The interval with handle `handle` fires: the closure passed to `setInterval`. */
    method Tick(handle: nat)
      requires Valid()
      modifies this`sent, this`signals
      ensures Valid()
      ensures Model() == BotSpec.Tick(old(Model()), handle)
    {
      if handle !in timers {
        return;
      }
      if !sock {
        return;
      }
      var message := timers[handle].message;
      sent := sent + [Delivery(groupId, message)];
      signals := signals + [Signal(message, Automatica)];
    }
  }
}
