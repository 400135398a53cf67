/** The live timer of the employee screen (app.py): the session fields
    `timer_status`, `inicio_tempo`, `primeiro_inicio` and `tempo_acumulado`,
    the INICIAR / PAUSAR / FINALIZAR handlers, the logout reset, and the
    in-progress time added to "TOTAL HOJE". The clock is the parameter `now`. */
module AppTimer {
  import opened Common
  import opened ActivityStore

  /** The four timer fields of `st.session_state`. */
  datatype Timer = Timer(status: Status, inicioTempo: Option<nat>, primeiroInicio: Option<nat>, tempoAcumulado: nat)

  /** The fields as first created (app.py:134-141). */
  const Initial: Timer := Timer(Parado, None, None, 0)

  /** A running or paused timer has both start times set. */
  predicate WellFormed(t: Timer)
  {
    t.status != Parado ==> t.inicioTempo.Some? && t.primeiroInicio.Some?
  }

  /** A stopped timer holds nothing over from an earlier cycle. */
  predicate Clean(t: Timer)
  {
    WellFormed(t) && (t.status == Parado ==> t == Initial)
  }

  /** The clock has not gone back past any time the timer holds. */
  predicate NotBefore(t: Timer, now: nat)
  {
    && (t.inicioTempo.Some? ==> t.inicioTempo.value <= now)
    && (t.primeiroInicio.Some? ==> t.primeiroInicio.value <= now)
  }

  /** `tempo_em_andamento` (app.py:221-225). */
  function Elapsed(t: Timer, now: nat): (e: nat)
    requires WellFormed(t) && NotBefore(t, now)
    ensures t.status == Parado ==> e == 0
    ensures t.status == Pausado ==> e == t.tempoAcumulado
    ensures t.status == Rodando ==> t.tempoAcumulado <= e && e - t.tempoAcumulado == now - t.inicioTempo.value
  {
    match t.status
    case Rodando => t.tempoAcumulado + (now - t.inicioTempo.value)
    case Pausado => t.tempoAcumulado
    case Parado => 0
  }

  /** "TOTAL HOJE" (app.py:214-227): the user's rows of today plus the time in progress. */
  function TodayTotal(rows: seq<Record>, t: Timer, usuario: string, now: nat): (total: nat)
    requires WellFormed(t) && NotBefore(t, now)
    ensures total >= DayTotal(rows, usuario, DayOf(now)) && total >= Elapsed(t, now)
    ensures t.status == Parado ==> total == DayTotal(rows, usuario, DayOf(now))
    ensures total <= SumSeconds(OnDay(rows, DayOf(now))) + Elapsed(t, now)
  {
    DayTotal(rows, usuario, DayOf(now)) + Elapsed(t, now)
  }

  /** While running the elapsed time grows exactly with the clock; otherwise it stands still. */
  lemma ElapsedFollowsClock(t: Timer, a: nat, b: nat)
    requires WellFormed(t) && NotBefore(t, a) && a <= b
    ensures NotBefore(t, b)
    ensures t.status == Rodando ==> Elapsed(t, b) == Elapsed(t, a) + (b - a)
    ensures t.status != Rodando ==> Elapsed(t, b) == Elapsed(t, a)
  {
  }

  /** INICIAR (app.py:266-273). Also serves as "resume" from a pause. */
  function Start(t: Timer, atividade: string, now: nat): (r: Timer)
    requires WellFormed(t) && NotBefore(t, now)
    ensures WellFormed(r) && NotBefore(r, now)
    ensures atividade == [] ==> r == t
    ensures atividade != [] ==> r.status == Rodando && r.inicioTempo == Some(now)
                                && r.tempoAcumulado == t.tempoAcumulado
    ensures atividade != [] ==> r.primeiroInicio == (if t.primeiroInicio.Some? then t.primeiroInicio else Some(now))
    // resuming a paused timer continues from the banked time
    ensures atividade != [] && t.status == Pausado ==> Elapsed(r, now) == Elapsed(t, now)
    // a first start from a clean stop begins at zero
    ensures atividade != [] && Clean(t) && t.status == Parado ==> Elapsed(r, now) == 0
    // pressing INICIAR while running restarts the current interval and drops its length
    ensures atividade != [] && t.status == Rodando ==>
              Elapsed(r, now) + (now - t.inicioTempo.value) == Elapsed(t, now)
    ensures Clean(t) ==> Clean(r)
  {
    if atividade == [] then t
    else
      var primeiro := if t.primeiroInicio.None? then Some(now) else t.primeiroInicio;
      Timer(Rodando, Some(now), primeiro, t.tempoAcumulado)
  }

  /** PAUSAR (app.py:275-279): only a running timer is affected. */
  function Pause(t: Timer, now: nat): (r: Timer)
    requires WellFormed(t) && NotBefore(t, now)
    ensures WellFormed(r) && NotBefore(r, now)
    ensures t.status != Rodando ==> r == t
    ensures t.status == Rodando ==>
              && r.status == Pausado
              && r.inicioTempo == t.inicioTempo && r.primeiroInicio == t.primeiroInicio
              && Elapsed(r, now) == Elapsed(t, now)
    ensures Clean(t) ==> Clean(r)
  {
    if t.status == Rodando then
      Timer(Pausado, t.inicioTempo, t.primeiroInicio, t.tempoAcumulado + (now - t.inicioTempo.value))
    else t
  }

  /** The timer together with the activity table, after a command. */
  datatype Step = Step(timer: Timer, rows: seq<Record>)

  /** The start time written for a finished activity (app.py:288): the first
      start when it is set and non-zero (Python truthiness), else the clock. */
  function FirstStartOrNow(t: Timer, now: nat): (r: nat)
    requires NotBefore(t, now)
    ensures r <= now
    ensures t.primeiroInicio.None? ==> r == now
    ensures t.primeiroInicio.Some? && t.primeiroInicio.value != 0 ==> r == t.primeiroInicio.value
    ensures t.primeiroInicio.Some? && t.primeiroInicio.value == 0 ==> r == now
  {
    if t.primeiroInicio.Some? && t.primeiroInicio.value != 0 then t.primeiroInicio.value else now
  }

  /** FINALIZAR (app.py:281-297): from a running or paused timer, save one row
      holding the elapsed time and reset the timer; nothing when stopped. */
  function Finish(t: Timer, usuario: string, atividade: string, rows: seq<Record>, now: nat): (s: Step)
    requires WellFormed(t) && NotBefore(t, now)
    ensures t.status == Parado ==> s == Step(t, rows)
    ensures t.status != Parado ==>
              && s.timer == Initial
              && |s.rows| == |rows| + 1 && s.rows[..|rows|] == rows
              && s.rows[|rows|].segundosTotais == Elapsed(t, now)
              && s.rows[|rows|].usuario == usuario && s.rows[|rows|].atividade == atividade
              && s.rows[|rows|].data == DayOf(now) && s.rows[|rows|].horaFim == TimeOfDay(now)
              && s.rows[|rows|].horaInicio == TimeOfDay(FirstStartOrNow(t, now))
  {
    if t.status == Parado then Step(t, rows)
    else
      var total := t.tempoAcumulado + (if t.status == Rodando then now - t.inicioTempo.value else 0);
      var row := NewRow(usuario, atividade, total, Some(FirstStartOrNow(t, now)), None, None, now);
      Step(Initial, rows + [row])
  }

  lemma FinishSaves(t: Timer, usuario: string, atividade: string, rows: seq<Record>, now: nat)
    requires WellFormed(t) && NotBefore(t, now) && t.status != Parado
    ensures Finish(t, usuario, atividade, rows, now)
         == Step(Initial, rows + [NewRow(usuario, atividade, Elapsed(t, now), Some(FirstStartOrNow(t, now)), None, None, now)])
  {
  }

  /** Finishing moves the time in progress into the table: "TOTAL HOJE" reads the same just before and just after. */
  lemma FinishKeepsTodayTotal(t: Timer, usuario: string, atividade: string, rows: seq<Record>, now: nat)
    requires WellFormed(t) && NotBefore(t, now)
    ensures var s := Finish(t, usuario, atividade, rows, now);
            TodayTotal(s.rows, s.timer, usuario, now) == TodayTotal(rows, t, usuario, now)
  {
  }

  /** Finishing a running timer saves what pausing it at that moment and then finishing would. */
  lemma FinishRunningIsPauseThenFinish(t: Timer, usuario: string, atividade: string, rows: seq<Record>, now: nat)
    requires WellFormed(t) && NotBefore(t, now) && t.status == Rodando
    ensures Finish(t, usuario, atividade, rows, now) == Finish(Pause(t, now), usuario, atividade, rows, now)
  {
  }

  /** INICIAR at each interval's start, PAUSAR at its end. */
  function Replay(t: Timer, atividade: string, spans: seq<Span>): (r: Timer)
    requires WellFormed(t) && Chained(spans) && (spans != [] ==> NotBefore(t, spans[0].from))
    ensures WellFormed(r)
    ensures spans == [] ==> r == t
    ensures spans != [] ==> NotBefore(r, spans[|spans| - 1].to)
    decreases |spans|
  {
    if spans == [] then t
    else
      var t1 := Pause(Start(t, atividade, spans[0].from), spans[0].to);
      Replay(t1, atividade, spans[1..])
  }

  /** Each start/pause pair banks exactly the length of its interval. */
  lemma {:induction false} ReplayBanksRunTime(t: Timer, atividade: string, spans: seq<Span>)
    requires atividade != [] && WellFormed(t) && t.status != Rodando
    requires Chained(spans) && (spans != [] ==> NotBefore(t, spans[0].from))
    ensures Replay(t, atividade, spans).tempoAcumulado == t.tempoAcumulado + RunTime(spans)
    ensures spans != [] ==> Replay(t, atividade, spans).status == Pausado
    decreases |spans|
  {
    if spans != [] {
      var t1 := Pause(Start(t, atividade, spans[0].from), spans[0].to);
      assert t1.tempoAcumulado == t.tempoAcumulado + (spans[0].to - spans[0].from);
      ReplayBanksRunTime(t1, atividade, spans[1..]);
    }
  }

  /** Start, any number of pause/restart cycles, finish: the saved duration is the
      sum of the running intervals, however the pauses fall. */
  lemma FinishRecordsRunTime(usuario: string, atividade: string, spans: seq<Span>, rows: seq<Record>, now: nat)
    requires atividade != [] && spans != [] && Chained(spans) && spans[|spans| - 1].to <= now
    ensures var t := Replay(Initial, atividade, spans);
            NotBefore(t, now) &&
            var s := Finish(t, usuario, atividade, rows, now);
            |s.rows| == |rows| + 1 && s.rows[..|rows|] == rows
            && s.rows[|rows|].segundosTotais == RunTime(spans) && s.timer == Initial
            && s.rows[|rows|].horaInicio == TimeOfDay(if spans[0].from != 0 then spans[0].from else now)
  {
    var t := Replay(Initial, atividade, spans);
    ReplayBanksRunTime(Initial, atividade, spans);
    var t1 := Pause(Start(Initial, atividade, spans[0].from), spans[0].to);
    assert t1.primeiroInicio == Some(spans[0].from);
    ReplayKeepsFirstStart(t1, atividade, spans[1..]);
  }

  /** Once `primeiro_inicio` is set, further INICIAR/PAUSAR pairs keep it
      (app.py:270): the saved start is the first INICIAR, not the last resume. */
  lemma {:induction false} ReplayKeepsFirstStart(t: Timer, atividade: string, spans: seq<Span>)
    requires WellFormed(t) && Chained(spans) && (spans != [] ==> NotBefore(t, spans[0].from))
    requires t.primeiroInicio.Some?
    ensures Replay(t, atividade, spans).primeiroInicio == t.primeiroInicio
    decreases |spans|
  {
    if spans != [] {
      var t1 := Pause(Start(t, atividade, spans[0].from), spans[0].to);
      assert t1.primeiroInicio == t.primeiroInicio;
      ReplayKeepsFirstStart(t1, atividade, spans[1..]);
    }
  }

  /** "Sair" (app.py:196-200) as written: only `timer_status` is reset. */
  function Logout(t: Timer): (r: Timer)
    ensures r.status == Parado
    ensures r.inicioTempo == t.inicioTempo && r.primeiroInicio == t.primeiroInicio
    ensures r.tempoAcumulado == t.tempoAcumulado
  {
    t.(status := Parado)
  }

  /** Logging out of a paused timer and starting afresh carries the banked time
      into the next activity, and its start time too: 100 s run from second 5
      before logout, then 10 s of new work from second 1000, and FINALIZAR
      saves 110 s starting at second 5. */
  lemma LogoutLeaksBankedTime()
    ensures var paused := Pause(Start(Initial, "a", 5), 105);
            var again := Start(Logout(paused), "b", 1000);
            var saved := Finish(again, "u", "b", [], 1010).rows[0];
            !Clean(Logout(paused)) && saved.segundosTotais == 110 && saved.horaInicio == TimeOfDay(5)
  {
  }

  /** The reset logout evidently intends: the whole timer back to its initial fields. */
  function LogoutReset(t: Timer): (r: Timer)
    ensures Clean(r) && r.status == Parado && r.tempoAcumulado == 0
  {
    Initial
  }

  /** After the corrected logout, a new start and finish save exactly the new work. */
  lemma LogoutResetStartsFresh(t: Timer, usuario: string, atividade: string, rows: seq<Record>, from: nat, now: nat)
    requires atividade != [] && from <= now
    ensures var again := Start(LogoutReset(t), atividade, from);
            Finish(again, usuario, atividade, rows, now).rows[|rows|].segundosTotais == now - from
  {
  }

  /** The employee's session (`st.session_state`): login fields and the timer fields. */
  class Session {
    var loggedIn: bool
    var userId: Option<string>
    var timerStatus: Status
    var inicioTempo: Option<nat>
    var primeiroInicio: Option<nat>
    var tempoAcumulado: nat

    function Snapshot(): Timer
      reads this
    {
      Timer(timerStatus, inicioTempo, primeiroInicio, tempoAcumulado)
    }

    ghost predicate Valid()
      reads this
    {
      WellFormed(Snapshot()) && (loggedIn <==> userId.Some?)
    }

    /** The session-state defaults (app.py:130-141). */
    constructor ()
      ensures Valid() && Snapshot() == Initial && !loggedIn
    {
      loggedIn := false;
      userId := None;
      timerStatus := Parado;
      inicioTempo := None;
      primeiroInicio := None;
      tempoAcumulado := 0;
    }

    /** A successful "Entrar" (app.py:166-169); checking the password is not modelled. */
    method Login(uid: string)
      requires Valid()
      modifies this
      ensures Valid() && loggedIn && userId == Some(uid)
      ensures Snapshot() == old(Snapshot())
    {
      loggedIn := true;
      userId := Some(uid);
    }

    /** "INICIAR" (app.py:266-273). */
    method Iniciar(atividade: string, now: nat)
      requires Valid() && NotBefore(Snapshot(), now)
      modifies this
      ensures Valid() && Snapshot() == Start(old(Snapshot()), atividade, now)
      ensures loggedIn == old(loggedIn) && userId == old(userId)
    {
      if atividade == [] {
        // the page warns that the activity name is missing
      } else {
        if primeiroInicio.None? {
          primeiroInicio := Some(now);
        }
        inicioTempo := Some(now);
        timerStatus := Rodando;
      }
    }

    /** "PAUSAR" (app.py:275-279). */
    method Pausar(now: nat)
      requires Valid() && NotBefore(Snapshot(), now)
      modifies this
      ensures Valid() && Snapshot() == Pause(old(Snapshot()), now)
      ensures loggedIn == old(loggedIn) && userId == old(userId)
    {
      if timerStatus == Rodando {
        tempoAcumulado := tempoAcumulado + (now - inicioTempo.value);
        timerStatus := Pausado;
      }
    }

    /** "FINALIZAR" (app.py:281-297), saving through `salvar_atividade`. */
    method Finalizar(db: ActivityFile, atividade: string, now: nat)
      requires Valid() && loggedIn && NotBefore(Snapshot(), now)
      modifies this, db
      ensures Valid() && loggedIn && userId == old(userId)
      ensures Step(Snapshot(), db.rows) == Finish(old(Snapshot()), old(userId.value), atividade, old(db.rows), now)
    {
      ghost var t := Snapshot();
      if timerStatus != Parado {
        var total := tempoAcumulado;
        if timerStatus == Rodando {
          total := total + (now - inicioTempo.value);
        }
        var uid := userId.value;
        var tempoCsv := if primeiroInicio.Some? && primeiroInicio.value != 0 then primeiroInicio.value else now;
        assert total == Elapsed(t, now) && tempoCsv == FirstStartOrNow(t, now);
        db.SaveActivity(uid, atividade, total, Some(tempoCsv), None, None, now);
        ghost var row := NewRow(uid, atividade, total, Some(tempoCsv), None, None, now);
        assert db.rows == old(db.rows) + [row];
        timerStatus := Parado;
        tempoAcumulado := 0;
        inicioTempo := None;
        primeiroInicio := None;
        FinishSaves(t, uid, atividade, old(db.rows), now);
      }
    }

    /** "Sair" (app.py:196-200). */
    method Sair()
      requires Valid()
      modifies this
      ensures Valid() && !loggedIn
      ensures Snapshot() == Logout(old(Snapshot()))
    {
      loggedIn := false;
      userId := None;
      timerStatus := Parado;
    }
  }
}
