/** The activity table (`registro_atividades.csv`, app.py) as an append-only
    sequence of rows: how `salvar_atividade` builds and appends a row, the
    manual-entry path, and the filtered sums the two screens show. */
module ActivityStore {
  import opened Common
  import opened DurationFormat

  /** One row of the table: columns usuario, atividade, hora_inicio, hora_fim,
      duracao_formatada, segundos_totais, data. Wall-clock columns hold the time
      of day and the day number the formatted strings denote. */
  datatype Record = Record(
    usuario: string,
    atividade: string,
    horaInicio: ClockTime,
    horaFim: ClockTime,
    duracaoFormatada: string,
    segundosTotais: nat,
    data: nat)

  /** The row `salvar_atividade` adds (app.py:98-117): manual start and end win
      when both are given; otherwise the start is the time of day of
      `inicio_float` (the clock when absent) and the end is the clock now. */
  function NewRow(usuario: string, atividade: string, segundos: nat, inicioFloat: Option<nat>,
                  horaInicioManual: Option<ClockTime>, horaFimManual: Option<ClockTime>, now: nat): (r: Record)
    ensures r.usuario == usuario && r.atividade == atividade && r.data == DayOf(now)
    ensures r.segundosTotais == segundos && r.duracaoFormatada == FormatDuration(segundos)
    ensures horaInicioManual.Some? && horaFimManual.Some? ==>
              r.horaInicio == horaInicioManual.value && r.horaFim == horaFimManual.value
    ensures !(horaInicioManual.Some? && horaFimManual.Some?) ==>
              r.horaFim == TimeOfDay(now) &&
              r.horaInicio == TimeOfDay(if inicioFloat.Some? then inicioFloat.value else now)
  {
    var (ini, fim) :=
      if horaInicioManual.Some? && horaFimManual.Some? then
        (horaInicioManual.value, horaFimManual.value)
      else
        var inicio := if inicioFloat.None? then now else inicioFloat.value;
        (TimeOfDay(inicio), TimeOfDay(now));
    Record(usuario, atividade, ini, fim, FormatDuration(segundos), segundos, DayOf(now))
  }

  /** The formatted duration of the row `salvar_atividade` builds reads back as its `segundos_totais`. */
  lemma SavedDurationReadsBack(usuario: string, atividade: string, segundos: nat, inicioFloat: Option<nat>,
                               horaInicioManual: Option<ClockTime>, horaFimManual: Option<ClockTime>, now: nat)
    ensures var r := NewRow(usuario, atividade, segundos, inicioFloat, horaInicioManual, horaFimManual, now);
            ParseDuration(r.duracaoFormatada) == Some(r.segundosTotais) == Some(segundos)
  {
    DurationRoundTrip(segundos);
  }

  datatype ManualError = EmptyLabel | EndNotAfterStart

  /** The manual-entry form (app.py:329-353): an empty label or an end not after
      the start is refused; otherwise the row carries the two times as given and
      their difference as its duration. */
  function ManualRow(usuario: string, atividade: string, horaIni: ClockTime, horaFim: ClockTime, now: nat)
    : (r: Result<Record, ManualError>)
    ensures r.Ok? <==> atividade != [] && horaIni < horaFim
    ensures atividade == [] ==> r == Err(EmptyLabel)
    ensures atividade != [] && horaIni >= horaFim ==> r == Err(EndNotAfterStart)
    ensures r.Ok? ==>
              && r.value.usuario == usuario && r.value.atividade == atividade
              && r.value.horaInicio == horaIni && r.value.horaFim == horaFim
              && r.value.segundosTotais == r.value.horaFim - r.value.horaInicio > 0
              && r.value.data == DayOf(now)
              && r.value.duracaoFormatada == FormatDuration(r.value.segundosTotais)
  {
    if atividade == [] then Err(EmptyLabel)
    else if horaIni >= horaFim then Err(EndNotAfterStart)
    else Ok(NewRow(usuario, atividade, horaFim - horaIni, None, Some(horaIni), Some(horaFim), now))
  }

  /** The CSV file on disk, created empty by `init_db`. */
  class ActivityFile {
    var rows: seq<Record>

    /** `init_db` when the file does not exist yet (app.py:83-86). */
    constructor ()
      ensures rows == []
    {
      rows := [];
    }

    /** `salvar_atividade` (app.py:95-121): read the whole table, concatenate the
        new row, write the table back. */
    method SaveActivity(usuario: string, atividade: string, segundos: nat, inicioFloat: Option<nat>,
                        horaInicioManual: Option<ClockTime>, horaFimManual: Option<ClockTime>, now: nat)
      modifies this
      ensures |rows| == |old(rows)| + 1 && rows[..|old(rows)|] == old(rows)
      ensures rows[|rows| - 1] == NewRow(usuario, atividade, segundos, inicioFloat, horaInicioManual, horaFimManual, now)
    {
      var df := rows;
      var novaLinha := NewRow(usuario, atividade, segundos, inicioFloat, horaInicioManual, horaFimManual, now);
      df := df + [novaLinha];
      rows := df;
    }

    /** The "Salvar Registro Manual" submit handler (app.py:329-353). */
    method SubmitManual(usuario: string, atividade: string, horaIni: ClockTime, horaFim: ClockTime, now: nat)
      returns (outcome: Result<Record, ManualError>)
      modifies this
      ensures outcome == ManualRow(usuario, atividade, horaIni, horaFim, now)
      ensures outcome.Err? ==> rows == old(rows)
      ensures outcome.Ok? ==> rows == old(rows) + [outcome.value]
    {
      outcome := ManualRow(usuario, atividade, horaIni, horaFim, now);
      if outcome.Ok? {
        SaveActivity(usuario, atividade, horaFim - horaIni, None, Some(horaIni), Some(horaFim), now);
        assert rows == old(rows) + [outcome.value];
      }
    }
  }

  /** Sum of `segundos_totais`. */
  function SumSeconds(rows: seq<Record>): nat
  {
    if rows == [] then 0 else SumSeconds(rows[..|rows| - 1]) + rows[|rows| - 1].segundosTotais
  }

  /** Rows of one day (`df[df["data"] == data_sel]`), in table order. */
  function OnDay(rows: seq<Record>, day: nat): (r: seq<Record>)
    ensures forall x :: x in r <==> x in rows && x.data == day
    ensures forall x :: multiset(r)[x] == if x.data == day then multiset(rows)[x] else 0
  {
    if rows == [] then []
    else
      assert rows == rows[..|rows| - 1] + [rows[|rows| - 1]];
      OnDay(rows[..|rows| - 1], day) + (if rows[|rows| - 1].data == day then [rows[|rows| - 1]] else [])
  }

  /** Rows of one user (`df[df["usuario"] == uid]`), in table order. */
  function OfUser(rows: seq<Record>, usuario: string): (r: seq<Record>)
    ensures forall x :: x in r <==> x in rows && x.usuario == usuario
    ensures forall x :: multiset(r)[x] == if x.usuario == usuario then multiset(rows)[x] else 0
  {
    if rows == [] then []
    else
      assert rows == rows[..|rows| - 1] + [rows[|rows| - 1]];
      OfUser(rows[..|rows| - 1], usuario) + (if rows[|rows| - 1].usuario == usuario then [rows[|rows| - 1]] else [])
  }

  /** Rows matching both user and day, the employee screen's filter (app.py:218). */
  function OfUserOnDay(rows: seq<Record>, usuario: string, day: nat): (r: seq<Record>)
    ensures forall x :: x in r <==> x in rows && x.usuario == usuario && x.data == day
    ensures forall x :: multiset(r)[x] == if x.usuario == usuario && x.data == day then multiset(rows)[x] else 0
  {
    if rows == [] then []
    else
      assert rows == rows[..|rows| - 1] + [rows[|rows| - 1]];
      var last := rows[|rows| - 1];
      OfUserOnDay(rows[..|rows| - 1], usuario, day) + (if last.usuario == usuario && last.data == day then [last] else [])
  }

  /** The recorded part of "TOTAL HOJE" (app.py:214-219). */
  function DayTotal(rows: seq<Record>, usuario: string, day: nat): (total: nat)
    ensures total <= SumSeconds(OnDay(rows, day))
  {
    FiltersCommute(rows, usuario, day);
    UserSumAtMostAll(OnDay(rows, day), usuario);
    SumSeconds(OfUserOnDay(rows, usuario, day))
  }

  /** Saving a row moves the day total of exactly the row's own user and day, by its duration. */
  lemma {:induction false} DayTotalAfterAppend(rows: seq<Record>, r: Record, usuario: string, day: nat)
    ensures DayTotal(rows + [r], usuario, day)
         == DayTotal(rows, usuario, day) + (if r.usuario == usuario && r.data == day then r.segundosTotais else 0)
  {
    assert (rows + [r])[..|rows + [r]| - 1] == rows;
    SumAppend(OfUserOnDay(rows, usuario, day), if r.usuario == usuario && r.data == day then [r] else []);
  }

  lemma {:induction false} SumAppend(a: seq<Record>, b: seq<Record>)
    ensures SumSeconds(a + b) == SumSeconds(a) + SumSeconds(b)
    decreases |b|
  {
    if b == [] {
      assert a + b == a;
    } else {
      var b' := b[..|b| - 1];
      assert (a + b)[..|a + b| - 1] == a + b';
      assert b[..|b| - 1] == b';
      SumAppend(a, b');
    }
  }

  // ---- the manager's view (app.py:395-403) ----

  /** The entry of the employee selector for one user: `f"{nome} ({uid})"` (app.py:395). */
  function SelectorLabel(nome: string, uid: string): string
  {
    nome + " (" + uid + ")"
  }

  /** `s.split("(")[-1]`: what follows the last '(' (all of `s` when there is none). */
  function AfterLastParen(s: string): (r: string)
    ensures '(' !in r
  {
    if s == [] then []
    else if s[|s| - 1] == '(' then []
    else AfterLastParen(s[..|s| - 1]) + [s[|s| - 1]]
  }

  /** `s.replace(")", "")`. */
  function DropCloseParens(s: string): (r: string)
    ensures forall c :: c in r <==> c in s && c != ')'
    ensures forall c :: multiset(r)[c] == if c == ')' then 0 else multiset(s)[c]
  {
    if s == [] then []
    else
      assert s == s[..|s| - 1] + [s[|s| - 1]];
      DropCloseParens(s[..|s| - 1]) + (if s[|s| - 1] == ')' then [] else [s[|s| - 1]])
  }

  /** The user id read back from a selector entry (app.py:400). */
  function SelectedUserId(selection: string): (uid: string)
    ensures '(' !in uid && ')' !in uid
  {
    DropCloseParens(AfterLastParen(selection))
  }

  lemma {:induction false} AfterLastParenOfSuffix(a: string, b: string)
    requires '(' !in b
    ensures AfterLastParen(a + "(" + b) == b
    decreases |b|
  {
    var s := a + "(" + b;
    if b == [] {
      assert s[|s| - 1] == '(';
    } else {
      var b' := b[..|b| - 1];
      assert s[..|s| - 1] == a + "(" + b';
      assert s[|s| - 1] == b[|b| - 1];
      AfterLastParenOfSuffix(a, b');
      assert b' + [b[|b| - 1]] == b;
    }
  }

  lemma {:induction false} DropCloseParensKeeps(s: string)
    requires ')' !in s
    ensures DropCloseParens(s) == s
    decreases |s|
  {
    if s != [] {
      DropCloseParensKeeps(s[..|s| - 1]);
      assert s[..|s| - 1] + [s[|s| - 1]] == s;
    }
  }

  /** A user id without parentheses is read back exactly from its selector entry,
      whatever the display name holds. */
  lemma SelectedUserIdRoundTrip(nome: string, uid: string)
    requires '(' !in uid && ')' !in uid
    ensures SelectedUserId(SelectorLabel(nome, uid)) == uid
  {
    var s := SelectorLabel(nome, uid);
    assert s == (nome + " ") + "(" + (uid + ")");
    AfterLastParenOfSuffix(nome + " ", uid + ")");
    assert (uid + ")")[..|uid|] == uid;
    DropCloseParensKeeps(uid);
  }

  /** "Total de Horas" in the manager's view (app.py:398-403): rows of the chosen
      day, further narrowed to the chosen employee unless "Todos" is selected. */
  function ManagerTotal(rows: seq<Record>, day: nat, selection: string): (total: nat)
    ensures total <= SumSeconds(OnDay(rows, day))
  {
    var ofDay := OnDay(rows, day);
    UserSumAtMostAll(ofDay, SelectedUserId(selection));
    if selection == "Todos" then SumSeconds(ofDay)
    else SumSeconds(OfUser(ofDay, SelectedUserId(selection)))
  }

  lemma {:induction false} FiltersCommute(rows: seq<Record>, usuario: string, day: nat)
    ensures OfUser(OnDay(rows, day), usuario) == OfUserOnDay(rows, usuario, day)
    decreases |rows|
  {
    if rows != [] {
      var init, last := rows[..|rows| - 1], rows[|rows| - 1];
      FiltersCommute(init, usuario, day);
      var d := OnDay(init, day);
      if last.data == day {
        assert OnDay(rows, day) == d + [last];
        assert (d + [last])[..|d + [last]| - 1] == d;
      } else {
        assert OnDay(rows, day) == d;
      }
    }
  }

  /** For an employee picked in the selector, the manager's total for a day is the
      recorded part of that employee's own "TOTAL HOJE" for that day. */
  lemma ManagerAgreesWithEmployee(rows: seq<Record>, day: nat, nome: string, uid: string)
    requires '(' !in uid && ')' !in uid
    ensures ManagerTotal(rows, day, SelectorLabel(nome, uid)) == DayTotal(rows, uid, day)
  {
    var sel := SelectorLabel(nome, uid);
    assert sel != "Todos" by {
      assert sel[|sel| - 1] == ')';
    }
    SelectedUserIdRoundTrip(nome, uid);
    FiltersCommute(rows, uid, day);
  }

  lemma {:induction false} UserSumAtMostAll(rows: seq<Record>, usuario: string)
    ensures SumSeconds(OfUser(rows, usuario)) <= SumSeconds(rows)
    decreases |rows|
  {
    if rows != [] {
      var init, last := rows[..|rows| - 1], rows[|rows| - 1];
      UserSumAtMostAll(init, usuario);
      var u := OfUser(init, usuario);
      if last.usuario == usuario {
        assert OfUser(rows, usuario) == u + [last];
        assert (u + [last])[..|u + [last]| - 1] == u;
      } else {
        assert OfUser(rows, usuario) == u;
      }
    }
  }

  /** No single employee's total for a day exceeds the "Todos" total for that day. */
  lemma ManagerUserTotalAtMostAll(rows: seq<Record>, day: nat, selection: string)
    ensures ManagerTotal(rows, day, selection) <= ManagerTotal(rows, day, "Todos")
  {
    UserSumAtMostAll(OnDay(rows, day), SelectedUserId(selection));
  }

  /** A user id holding a parenthesis is misread from its selector entry: the
      entry "Ana (a(1))" yields "1", so the manager sees another id's rows. */
  lemma ParenthesisedIdMisread()
    ensures SelectedUserId(SelectorLabel("Ana", "a(1)")) == "1"
  {
    var s := SelectorLabel("Ana", "a(1)");
    assert s == "Ana (a" + "(" + "1))";
    AfterLastParenOfSuffix("Ana (a", "1))");
    assert "1))"[..2] == "1)" && "1)"[..1] == "1" && "1"[..0] == [];
    assert DropCloseParens("1))") == "1";
  }

  /** The manager's total when the selector hands back the user id itself
      (`None` standing for "Todos") instead of a label to be parsed. */
  function ManagerTotalById(rows: seq<Record>, day: nat, selected: Option<string>): (total: nat)
    ensures total <= SumSeconds(OnDay(rows, day))
  {
    var ofDay := OnDay(rows, day);
    UserSumAtMostAll(ofDay, if selected.Some? then selected.value else "");
    if selected.None? then SumSeconds(ofDay) else SumSeconds(OfUser(ofDay, selected.value))
  }

  /** With the id passed through, the manager's total agrees with the employee's
      own day total for every user id, parentheses or not. */
  lemma ManagerByIdAgreesWithEmployee(rows: seq<Record>, day: nat, uid: string)
    ensures ManagerTotalById(rows, day, Some(uid)) == DayTotal(rows, uid, day)
  {
    FiltersCommute(rows, uid, day);
  }
}
