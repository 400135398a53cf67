/** The earlier single-page timer (teste.py): session fields `status`,
    `inicio_tarefa`, `acumulado` and the in-memory task list `tarefas`, with
    Iniciar / Pausar / Continuar / Finalizar buttons and the live display.
    A button the page does not show in the current state cannot be pressed;
    its command is modelled as leaving everything unchanged. */
module TesteTimer {
  import opened Common
  import opened DurationFormat

  /** The three timer fields of `st.session_state`. */
  datatype Timer = Timer(status: Status, inicioTarefa: Option<nat>, acumulado: nat)

  /** One entry of `tarefas`: activity, formatted duration, time of day saved. */
  datatype Tarefa = Tarefa(atividade: string, duracao: string, timestamp: ClockTime)

  /** The fields as first created (teste.py:11-19). */
  const Initial: Timer := Timer(Parado, None, 0)

  /** `inicio_tarefa` is unset exactly when stopped, and a stopped timer has nothing banked. */
  predicate Consistent(t: Timer)
  {
    (t.status == Parado <==> t.inicioTarefa.None?) && (t.status == Parado ==> t.acumulado == 0)
  }

  /** The clock has not gone back past the start time the timer holds. */
  predicate NotBefore(t: Timer, now: nat)
  {
    t.inicioTarefa.Some? ==> t.inicioTarefa.value <= now
  }

  // ---- `atividade.strip() == ""` ----

  /** Python's `str.isspace` for one character. */
  predicate IsSpace(c: char)
  {
    var x := c as int;
    x == 32 || 9 <= x <= 13 || 28 <= x <= 31 || x == 0x85 || x == 0xA0 || x == 0x1680
    || 0x2000 <= x <= 0x200A || x == 0x2028 || x == 0x2029 || x == 0x202F || x == 0x205F || x == 0x3000
  }

  predicate AllSpace(s: string)
  {
    forall i | 0 <= i < |s| :: IsSpace(s[i])
  }

  function TrimStart(s: string): (r: string)
    ensures |r| <= |s|
    ensures r == [] || !IsSpace(r[0])
  {
    if s != [] && IsSpace(s[0]) then TrimStart(s[1..]) else s
  }

  function TrimEnd(s: string): (r: string)
    ensures |r| <= |s| && r == s[..|r|]
    ensures r == [] || !IsSpace(r[|r| - 1])
  {
    if s != [] && IsSpace(s[|s| - 1]) then TrimEnd(s[..|s| - 1]) else s
  }

  /** `str.strip()` with no argument. */
  function Strip(s: string): (r: string)
    ensures |r| <= |s|
    ensures r == [] || (!IsSpace(r[0]) && !IsSpace(r[|r| - 1]))
  {
    var t := TrimStart(s);
    var r := TrimEnd(t);
    assert r != [] ==> r[0] == t[0];
    r
  }

  lemma {:induction false} TrimStartEmptyIffAllSpace(s: string)
    ensures TrimStart(s) == [] <==> AllSpace(s)
    decreases |s|
  {
    if s != [] && IsSpace(s[0]) {
      TrimStartEmptyIffAllSpace(s[1..]);
      assert AllSpace(s) <==> AllSpace(s[1..]) by {
        if AllSpace(s[1..]) {
          forall i | 0 <= i < |s| ensures IsSpace(s[i]) {
            if i > 0 { assert s[i] == s[1..][i - 1]; }
          }
        }
      }
    }
  }

  lemma {:induction false} TrimEndEmptyIffAllSpace(s: string)
    ensures TrimEnd(s) == [] <==> AllSpace(s)
    decreases |s|
  {
    if s != [] && IsSpace(s[|s| - 1]) {
      TrimEndEmptyIffAllSpace(s[..|s| - 1]);
      assert AllSpace(s) <==> AllSpace(s[..|s| - 1]) by {
        if AllSpace(s[..|s| - 1]) {
          forall i | 0 <= i < |s| ensures IsSpace(s[i]) {
            if i < |s| - 1 { assert s[i] == s[..|s| - 1][i]; }
          }
        }
      }
    }
  }

  /** A label is refused by Iniciar exactly when every character of it is whitespace. */
  lemma StripEmptyIffAllSpace(s: string)
    ensures Strip(s) == [] <==> AllSpace(s)
  {
    TrimStartEmptyIffAllSpace(s);
    TrimEndEmptyIffAllSpace(TrimStart(s));
  }

  // ---- the commands ----

  /** The live display (teste.py:106-114): nothing shown when stopped. */
  function Display(t: Timer, now: nat): (shown: Option<nat>)
    requires Consistent(t) && NotBefore(t, now)
    ensures shown.Some? <==> t.status != Parado
    ensures t.status == Pausado ==> shown == Some(t.acumulado)
    ensures t.status == Rodando ==> shown.value >= t.acumulado && shown.value - t.acumulado == now - t.inicioTarefa.value
  {
    match t.status
    case Rodando => Some(t.acumulado + (now - t.inicioTarefa.value))
    case Pausado => Some(t.acumulado)
    case Parado => None
  }

  /** Time counted so far: the display, or 0 when nothing is shown. */
  function Elapsed(t: Timer, now: nat): nat
    requires Consistent(t) && NotBefore(t, now)
  {
    match Display(t, now)
    case Some(e) => e
    case None => 0
  }

  /** While running the display grows exactly with the clock; otherwise it stands still. */
  lemma DisplayFollowsClock(t: Timer, a: nat, b: nat)
    requires Consistent(t) && NotBefore(t, a) && a <= b
    ensures NotBefore(t, b)
    ensures Display(t, b).Some? <==> t.status != Parado
    ensures t.status == Rodando ==> Elapsed(t, b) == Elapsed(t, a) + (b - a)
    ensures t.status != Rodando ==> Display(t, b) == Display(t, a)
  {
  }

  /** "Iniciar" (teste.py:43-51): shown in every state; a blank label is refused,
      otherwise a new count starts from zero now. */
  function Start(t: Timer, atividade: string, now: nat): (r: Timer)
    requires Consistent(t) && NotBefore(t, now)
    ensures Consistent(r) && NotBefore(r, now)
    ensures AllSpace(atividade) ==> r == t
    ensures !AllSpace(atividade) ==> r.status == Rodando && r.inicioTarefa == Some(now) && Display(r, now) == Some(0)
  {
    StripEmptyIffAllSpace(atividade);
    if Strip(atividade) == [] then t else Timer(Rodando, Some(now), 0)
  }

  /** "Pausar" (teste.py:57-63), shown only while running. */
  function Pause(t: Timer, now: nat): (r: Timer)
    requires Consistent(t) && NotBefore(t, now)
    ensures Consistent(r) && NotBefore(r, now)
    ensures t.status != Rodando ==> r == t
    ensures t.status == Rodando ==>
              && r.status == Pausado && r.inicioTarefa == t.inicioTarefa
              && Display(r, now) == Display(t, now)
  {
    if t.status == Rodando then
      Timer(Pausado, t.inicioTarefa, t.acumulado + (now - t.inicioTarefa.value))
    else t
  }

  /** "Continuar" (teste.py:69-74), shown only while paused. */
  function Resume(t: Timer, now: nat): (r: Timer)
    requires Consistent(t) && NotBefore(t, now)
    ensures Consistent(r) && NotBefore(r, now)
    ensures t.status != Pausado ==> r == t
    ensures t.status == Pausado ==>
              && r.status == Rodando && r.inicioTarefa == Some(now) && r.acumulado == t.acumulado
              && Display(r, now) == Display(t, now)
  {
    if t.status == Pausado then Timer(Rodando, Some(now), t.acumulado) else t
  }

  /** The timer together with the task list, after a command. */
  datatype Step = Step(timer: Timer, tarefas: seq<Tarefa>)

  /** "Finalizar" (teste.py:80-100), shown while running or paused: append one
      task holding the elapsed time, then reset the timer. */
  function Finish(t: Timer, tarefas: seq<Tarefa>, atividade: string, now: nat): (s: Step)
    requires Consistent(t) && NotBefore(t, now)
    ensures Consistent(s.timer)
    ensures t.status == Parado ==> s == Step(t, tarefas)
    ensures t.status != Parado ==>
              && s.timer == Initial
              && |s.tarefas| == |tarefas| + 1 && s.tarefas[..|tarefas|] == tarefas
              && s.tarefas[|tarefas|].atividade == atividade
              && s.tarefas[|tarefas|].duracao == FormatDuration(Elapsed(t, now))
              && s.tarefas[|tarefas|].timestamp == TimeOfDay(now)
  {
    if t.status == Parado then Step(t, tarefas)
    else
      var total := t.acumulado + (if t.status == Rodando then now - t.inicioTarefa.value else 0);
      Step(Initial, tarefas + [Tarefa(atividade, FormatDuration(total), TimeOfDay(now))])
  }

  /** Finishing a running timer saves what pausing it at that moment and then finishing would. */
  lemma FinishRunningIsPauseThenFinish(t: Timer, tarefas: seq<Tarefa>, atividade: string, now: nat)
    requires Consistent(t) && NotBefore(t, now) && t.status == Rodando
    ensures Finish(t, tarefas, atividade, now) == Finish(Pause(t, now), tarefas, atividade, now)
  {
  }

  /** "Continuar" at each interval's start, "Pausar" at its end. */
  function Cycles(t: Timer, spans: seq<Span>): (r: Timer)
    requires Consistent(t) && Chained(spans) && (spans != [] ==> NotBefore(t, spans[0].from))
    ensures Consistent(r)
    ensures spans == [] ==> r == t
    ensures spans != [] ==> NotBefore(r, spans[|spans| - 1].to)
    decreases |spans|
  {
    if spans == [] then t
    else Cycles(Pause(Resume(t, spans[0].from), spans[0].to), spans[1..])
  }

  /** Each resume/pause pair from a paused timer banks exactly the length of its interval. */
  lemma {:induction false} CyclesBankRunTime(t: Timer, spans: seq<Span>)
    requires Consistent(t) && t.status == Pausado
    requires Chained(spans) && (spans != [] ==> NotBefore(t, spans[0].from))
    ensures Cycles(t, spans).status == Pausado
    ensures Cycles(t, spans).acumulado == t.acumulado + RunTime(spans)
    decreases |spans|
  {
    if spans != [] {
      var t1 := Pause(Resume(t, spans[0].from), spans[0].to);
      assert t1.acumulado == t.acumulado + (spans[0].to - spans[0].from);
      CyclesBankRunTime(t1, spans[1..]);
    }
  }

  /** Iniciar, Pausar, then any number of Continuar/Pausar cycles, from whatever
      state the page was in. */
  function RunCycle(t: Timer, atividade: string, spans: seq<Span>): (r: Timer)
    requires Consistent(t) && spans != [] && Chained(spans) && NotBefore(t, spans[0].from)
    ensures Consistent(r) && NotBefore(r, spans[|spans| - 1].to)
  {
    var first := Pause(Start(t, atividade, spans[0].from), spans[0].to);
    assert Chained(spans[1..]);
    Cycles(first, spans[1..])
  }

  /** Iniciar, Pausar and the Continuar/Pausar cycles leave the timer paused with
      exactly the running intervals banked. */
  lemma RunCycleBanksRunTime(t: Timer, atividade: string, spans: seq<Span>)
    requires !AllSpace(atividade) && Consistent(t)
    requires spans != [] && Chained(spans) && NotBefore(t, spans[0].from)
    ensures RunCycle(t, atividade, spans).status == Pausado
    ensures RunCycle(t, atividade, spans).acumulado == RunTime(spans)
  {
    var first := Pause(Start(t, atividade, spans[0].from), spans[0].to);
    assert first.status == Pausado && first.acumulado == spans[0].to - spans[0].from;
    CyclesBankRunTime(first, spans[1..]);
  }

  /** Iniciar → Pausar → (Continuar → Pausar)* → Finalizar saves a task whose
      duration reads back as the sum of all running intervals. */
  lemma {:induction false} FinishRecordsRunTime(t: Timer, tarefas: seq<Tarefa>, atividade: string, spans: seq<Span>, now: nat)
    requires !AllSpace(atividade) && Consistent(t)
    requires spans != [] && Chained(spans) && NotBefore(t, spans[0].from) && spans[|spans| - 1].to <= now
    ensures var p := RunCycle(t, atividade, spans);
            NotBefore(p, now) &&
            var s := Finish(p, tarefas, atividade, now);
            |s.tarefas| == |tarefas| + 1 && s.tarefas[..|tarefas|] == tarefas
            && ParseDuration(s.tarefas[|tarefas|].duracao) == Some(RunTime(spans))
            && s.timer == Initial
  {
    var p := RunCycle(t, atividade, spans);
    RunCycleBanksRunTime(t, atividade, spans);
    assert Elapsed(p, now) == RunTime(spans);
    DurationRoundTrip(RunTime(spans));
  }

  /** The same cycles ended by a last Continuar and a Finalizar while running:
      the task holds the banked intervals plus the last running stretch. */
  lemma {:induction false} FinishWhileRunningRecordsRunTime(t: Timer, tarefas: seq<Tarefa>, atividade: string, spans: seq<Span>,
                                         resumeAt: nat, now: nat)
    requires !AllSpace(atividade) && Consistent(t)
    requires spans != [] && Chained(spans) && NotBefore(t, spans[0].from)
    requires spans[|spans| - 1].to <= resumeAt <= now
    ensures var q := Resume(RunCycle(t, atividade, spans), resumeAt);
            q.status == Rodando && NotBefore(q, now) && Elapsed(q, now) == RunTime(spans) + (now - resumeAt)
    ensures var q := Resume(RunCycle(t, atividade, spans), resumeAt);
            ParseDuration(Finish(q, tarefas, atividade, now).tarefas[|tarefas|].duracao) == Some(RunTime(spans) + (now - resumeAt))
  {
    RunCycleBanksRunTime(t, atividade, spans);
    ResumeThenFinish(RunCycle(t, atividade, spans), tarefas, atividade, resumeAt, now);
  }

  /** Continuar on a paused timer, then Finalizar: the task holds the banked time
      plus the stretch since Continuar. */
  lemma ResumeThenFinish(p: Timer, tarefas: seq<Tarefa>, atividade: string, resumeAt: nat, now: nat)
    requires Consistent(p) && p.status == Pausado && NotBefore(p, resumeAt) && resumeAt <= now
    ensures var q := Resume(p, resumeAt);
            q.status == Rodando && NotBefore(q, now) && Elapsed(q, now) == p.acumulado + (now - resumeAt)
    ensures ParseDuration(Finish(Resume(p, resumeAt), tarefas, atividade, now).tarefas[|tarefas|].duracao)
         == Some(p.acumulado + (now - resumeAt))
  {
    FinishReadsBack(Resume(p, resumeAt), tarefas, atividade, now);
  }

  /** The duration text of the task Finalizar appends reads back as the time counted. */
  lemma FinishReadsBack(t: Timer, tarefas: seq<Tarefa>, atividade: string, now: nat)
    requires Consistent(t) && NotBefore(t, now) && t.status != Parado
    ensures ParseDuration(Finish(t, tarefas, atividade, now).tarefas[|tarefas|].duracao) == Some(Elapsed(t, now))
  {
    DurationRoundTrip(Elapsed(t, now));
  }

  /** The page's session state. */
  class Session {
    var status: Status
    var inicioTarefa: Option<nat>
    var acumulado: nat
    var tarefas: seq<Tarefa>

    function Snapshot(): Timer
      reads this
    {
      Timer(status, inicioTarefa, acumulado)
    }

    ghost predicate Valid()
      reads this
    {
      Consistent(Snapshot())
    }

    /** The session-state defaults (teste.py:11-22). */
    constructor ()
      ensures Valid() && Snapshot() == Initial && tarefas == []
    {
      status := Parado;
      inicioTarefa := None;
      acumulado := 0;
      tarefas := [];
    }

    /** "Iniciar" (teste.py:43-51). */
    method Iniciar(atividade: string, now: nat)
      requires Valid() && NotBefore(Snapshot(), now)
      modifies this
      ensures Valid() && Snapshot() == Start(old(Snapshot()), atividade, now) && tarefas == old(tarefas)
    {
      if Strip(atividade) == [] {
        // the page asks for the activity first
      } else {
        status := Rodando;
        inicioTarefa := Some(now);
        acumulado := 0;
      }
    }

    /** "Pausar" (teste.py:57-63). */
    method Pausar(now: nat)
      requires Valid() && NotBefore(Snapshot(), now)
      modifies this
      ensures Valid() && Snapshot() == Pause(old(Snapshot()), now) && tarefas == old(tarefas)
    {
      if status == Rodando {
        var tempoAtual := now - inicioTarefa.value;
        acumulado := acumulado + tempoAtual;
        status := Pausado;
      }
    }

    /** "Continuar" (teste.py:69-74). */
    method Continuar(now: nat)
      requires Valid() && NotBefore(Snapshot(), now)
      modifies this
      ensures Valid() && Snapshot() == Resume(old(Snapshot()), now) && tarefas == old(tarefas)
    {
      if status == Pausado {
        status := Rodando;
        inicioTarefa := Some(now);
      }
    }

    /** "Finalizar" (teste.py:80-100). */
    method Finalizar(atividade: string, now: nat)
      requires Valid() && NotBefore(Snapshot(), now)
      modifies this
      ensures Valid() && Step(Snapshot(), tarefas) == Finish(old(Snapshot()), old(tarefas), atividade, now)
    {
      if status == Rodando || status == Pausado {
        var tempoTotal := acumulado;
        if status == Rodando {
          tempoTotal := tempoTotal + (now - inicioTarefa.value);
        }
        tarefas := tarefas + [Tarefa(atividade, FormatDuration(tempoTotal), TimeOfDay(now))];
        status := Parado;
        inicioTarefa := None;
        acumulado := 0;
      }
    }

    /** The live display (teste.py:106-114): reads the fields and changes nothing. */
    method ShowElapsed(now: nat) returns (shown: Option<nat>)
      requires Valid() && NotBefore(Snapshot(), now)
      ensures shown == Display(Snapshot(), now)
      ensures shown.Some? <==> status != Parado
    {
      if status == Rodando {
        var tempoAtual := acumulado + (now - inicioTarefa.value);
        shown := Some(tempoAtual);
      } else if status == Pausado {
        shown := Some(acumulado);
      } else {
        shown := None;
      }
    }
  }
}
