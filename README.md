# Registro-Horas timer and activity accounting, in Dafny

This project models the core of a small time-tracking web app: an employee
starts, pauses and finishes a timer against a named activity, or enters a
past interval by hand, and each finished activity becomes one row of an
activity table. A manager sums the table by day and employee.

Two variants of the timer exist in the repository and both are modelled:

- `app.py`, the production page. The session fields are `timer_status`
  (`parado`, `rodando`, `pausado`), `inicio_tempo`, `primeiro_inicio` and
  `tempo_acumulado`. The buttons are INICIAR, which also resumes a pause,
  PAUSAR and FINALIZAR. FINALIZAR saves one row through `salvar_atividade`
  into `registro_atividades.csv`. The page also has a manual-entry form, a
  "TOTAL HOJE" figure, a logout button and the manager's filtered total.
- `teste.py`, an earlier page. Its fields are `status`, `inicio_tarefa`,
  `acumulado` and an in-memory list `tarefas`. Its buttons are Iniciar,
  Pausar, Continuar and Finalizar, each shown only in the states where it
  applies.

Time is a natural number of seconds, passed in as `now` wherever the source
reads the clock. A calendar day is `now / 86400` and a time of day is
`now % 86400`.

Files:

- `common.dfy`: `Option`, `Result`, the status values, the clock helpers,
  and running intervals (`Span`, `Chained`, `RunTime`).
- `duration_format.dfy`: `formatar_tempo`, which is Python's
  `str(timedelta(seconds=n))`: "H:MM:SS", with "1 day, " or "N days, " in
  front from one day on. It also has a parser for that text and the proof
  that the parser reads back every formatted duration.
- `activity_store.dfy`: the table row, `salvar_atividade` (the class
  `ActivityFile`, whose field `rows` is the CSV file), the manual-entry
  path, the employee's day total, and the manager's selector parsing and
  total.
- `app_timer.dfy`: the `app.py` timer. It has a value model (`Timer`, with
  `Start`, `Pause`, `Finish`, `Logout` and `Elapsed`) and the class
  `Session`, whose methods update the session fields in place. Each method
  is proved equal to its value-level function.
- `teste_timer.dfy`: the same two layers for `teste.py`.

## Model

| member | source | states |
|---|---|---|
| `DurationFormat.FormatDuration` | app.py:123-124 | the definition of `formatar_tempo` (the same as teste.py:28-29) that `DurationRoundTrip` is about; its own contract: below one day the text is 7 or 8 characters long, the length of "H:MM:SS" with one or two hour digits, and from one day on it is at least as long as "1 day, 0:00:00" |
| `DurationFormat.DayPrefixIffOneDay` | app.py:123-124 | the text holds a space, which only the "N day(s), " prefix writes, exactly when the duration is one day or more |
| `DurationFormat.DurationRoundTrip` | app.py:123-124 | the text `formatar_tempo` writes, including the "N day(s), " prefix, reads back as exactly the number of seconds formatted |
| `DurationFormat.ClockRoundTrip` | teste.py:28-29 | the "H:MM:SS" part written for a time below one day reads back as that time |
| `ActivityStore.NewRow` | app.py:98-117 | the new row carries the given user, activity and `segundos_totais`, today's date, and the formatted duration; when both manual times are given they are stored as start and end; otherwise the start is the time of day of `inicio_float` (the clock when it is absent) and the end is the clock now |
| `ActivityStore.SavedDurationReadsBack` | app.py:114-115 | for every row `NewRow` builds, whatever its times, `duracao_formatada` reads back as `segundos_totais`, which is the duration passed in |
| `ActivityStore.ManualRow` | app.py:329-353 | a manual entry is accepted exactly when the label is non-empty and start < end; an empty label and an end not after the start give distinct errors; an accepted row keeps both times as given, its positive duration is end minus start, and its `duracao_formatada` is `formatar_tempo` of that duration |
| `ActivityStore.ActivityFile.constructor` | app.py:83-86 | a newly created table has no rows |
| `ActivityStore.ActivityFile.SaveActivity` | app.py:95-121 | the table grows by exactly one row at the end, earlier rows stay unchanged and in order, and the new row is `NewRow` of the arguments |
| `ActivityStore.ActivityFile.SubmitManual` | app.py:329-353 | a refused manual entry leaves the table unchanged; an accepted one appends exactly its row |
| `ActivityStore.OnDay` | app.py:218 | the rows of one date: a row is kept exactly when it is in the table and has that `data`, and each such row as many times as the table holds it |
| `ActivityStore.OfUser` | app.py:401 | the rows of one user: a row is kept exactly when it is in the table and has that `usuario`, and each such row as many times as the table holds it |
| `ActivityStore.OfUserOnDay` | app.py:218 | the rows of one user on one date: a row is kept exactly when it is in the table and has both, and each such row as many times as the table holds it |
| `ActivityStore.DayTotal` | app.py:214-219 | the definition of the recorded part of "TOTAL HOJE" that `DayTotalAfterAppend` and `ManagerAgreesWithEmployee` are about; its own contract: it never exceeds the total of all users' rows that day |
| `ActivityStore.DayTotalAfterAppend` | app.py:214-219 | appending a row raises the day total of exactly that row's user and day by the row's seconds, and leaves every other user's and day's total unchanged |
| `ActivityStore.AfterLastParen` | app.py:400 | `split("(")[-1]`: the definition `SelectedUserId` uses; its result holds no '(' |
| `ActivityStore.DropCloseParens` | app.py:400 | `replace(")", "")`: no ')' is left, and every other character is kept as many times as the input holds it |
| `ActivityStore.SelectedUserId` | app.py:400 | the definition `SelectedUserIdRoundTrip` and `ParenthesisedIdMisread` are about; its own contract: the id read out of an entry holds neither '(' nor ')' |
| `ActivityStore.SelectedUserIdRoundTrip` | app.py:395-400 | the user id parsed out of a selector entry "Name (uid)" is that uid, whatever the name holds, when the uid has no parentheses |
| `ActivityStore.ManagerTotal` | app.py:398-403 | the definition of the manager's total that `ManagerAgreesWithEmployee` and `ManagerUserTotalAtMostAll` are about; its own contract: it never exceeds the total of all rows of the chosen day |
| `ActivityStore.ManagerAgreesWithEmployee` | app.py:398-403 | the manager's total for an employee picked in the selector equals the recorded part of that employee's own "TOTAL HOJE" for the same day |
| `ActivityStore.ManagerUserTotalAtMostAll` | app.py:398-403 | no selection gives a larger total for a day than "Todos" |
| `ActivityStore.ParenthesisedIdMisread` | app.py:400 | the entry for user id "a(1)", "Ana (a(1))", is read back as the id "1" |
| `ActivityStore.ManagerTotalById` | app.py:398-403 | the manager's total when the selector yields the user id itself; it never exceeds the day's total of all rows |
| `ActivityStore.ManagerByIdAgreesWithEmployee` | app.py:398-403 | for every user id, parentheses included, the total of the manager's selection by id equals that user's recorded day total |
| `AppTimer.Elapsed` | app.py:221-225 | the definition of `tempo_em_andamento` that `ElapsedFollowsClock`, `Start`, `Pause` and `Finish` are about; its own contract: zero when stopped, the banked time when paused, and while running the banked time plus exactly the time since `inicio_tempo` |
| `AppTimer.TodayTotal` | app.py:214-227 | the definition of "TOTAL HOJE" that `FinishKeepsTodayTotal` is about; its own contract: at least the recorded day total and at least the time in progress, exactly the recorded total when stopped, and at most the day's total of all users plus the time in progress |
| `AppTimer.ElapsedFollowsClock` | app.py:221-225 | while running, the time in progress grows exactly with the clock; while paused or stopped it does not change |
| `AppTimer.Start` | app.py:266-273 | an empty label changes nothing; otherwise the status becomes rodando with `inicio_tempo` = now and the banked time is kept; `primeiro_inicio` is set only if unset; resuming a pause continues from the banked time; a first start from a clean stop shows zero; starting while running drops the current interval's length; the clean-stop invariant is kept |
| `AppTimer.Pause` | app.py:275-279 | in any status but rodando nothing changes; from rodando the status becomes pausado and the time in progress at that moment is unchanged, now banked in `tempo_acumulado` |
| `AppTimer.Finish` | app.py:281-297 | when stopped nothing changes; otherwise exactly one row is appended after the unchanged earlier rows; its `segundos_totais` is the time in progress and it has the given user and activity, today's date, the clock as end and the first start (or the clock) as start; the timer is reset to its initial fields |
| `AppTimer.FirstStartOrNow` | app.py:288 | the definition of the saved start time that `Finish` uses; its own contract: a set, non-zero `primeiro_inicio` is used; the clock is used when it is unset or zero; the result is never after the clock |
| `AppTimer.FinishKeepsTodayTotal` | app.py:214-227 | "TOTAL HOJE" (today's rows plus the time in progress) reads the same just before and just after FINALIZAR |
| `AppTimer.FinishRunningIsPauseThenFinish` | app.py:282-285 | finishing a running timer saves what pausing at that moment and then finishing would |
| `AppTimer.ReplayBanksRunTime` | app.py:270-278 | from a non-running timer, each INICIAR/PAUSAR pair banks exactly the length of its interval and leaves the timer paused |
| `AppTimer.FinishRecordsRunTime` | app.py:266-294 | from the initial state, INICIAR and PAUSAR over any chain of intervals, then FINALIZAR, saves exactly one row whose duration is the sum of the interval lengths and whose start time is the first INICIAR, not the last resume (the clock instead when that first INICIAR was at second 0) |
| `AppTimer.ReplayKeepsFirstStart` | app.py:270 | once `primeiro_inicio` is set, any number of INICIAR/PAUSAR pairs leave it unchanged |
| `AppTimer.Logout` | app.py:196-200 | logout as written sets the status to parado and keeps `inicio_tempo`, `primeiro_inicio` and `tempo_acumulado` |
| `AppTimer.LogoutLeaksBankedTime` | app.py:196-200 | after the logout as written, time banked before it is saved with the next activity: 100 s run from second 5 before logout and 10 s after are saved as 110 s, with second 5 as the start time |
| `AppTimer.LogoutReset` | app.py:196-200 | the corrected logout leaves a clean stopped timer with nothing banked |
| `AppTimer.LogoutResetStartsFresh` | app.py:266-294 | after the corrected logout, a start and a finish save exactly the time between them |
| `AppTimer.Session.constructor` | app.py:130-141 | a new session is logged out with the timer fields at their defaults |
| `AppTimer.Session.Login` | app.py:166-169 | a successful login records the user id and leaves the timer fields alone |
| `AppTimer.Session.Iniciar` | app.py:266-273 | the fields become `Start` of the old fields; the login fields are unchanged |
| `AppTimer.Session.Pausar` | app.py:275-279 | the fields become `Pause` of the old fields; the login fields are unchanged |
| `AppTimer.Session.Finalizar` | app.py:281-297 | the fields and the table together become `Finish` of the old fields and the old table, saved under the logged-in user |
| `AppTimer.Session.Sair` | app.py:196-200 | the user is logged out and the timer fields become `Logout` of the old ones |
| `TesteTimer.Strip` | teste.py:44 | the definition of `str.strip()` that `StripEmptyIffAllSpace` is about; its own contract: the result is no longer than the input and, unless empty, neither starts nor ends with whitespace |
| `TesteTimer.StripEmptyIffAllSpace` | teste.py:44 | `atividade.strip() == ""` holds exactly when every character is whitespace as Python defines it |
| `TesteTimer.Display` | teste.py:106-114 | the definition of the live display that `DisplayFollowsClock` and `Session.ShowElapsed` are about; its own contract: a time is shown exactly when not parado, the banked `acumulado` when paused, and while running `acumulado` plus exactly the time since `inicio_tarefa` |
| `TesteTimer.DisplayFollowsClock` | teste.py:106-114 | a time is displayed exactly when the status is not parado; while running it grows exactly with the clock; otherwise it does not change |
| `TesteTimer.Start` | teste.py:43-51 | a blank label changes nothing; otherwise the status becomes rodando with `inicio_tarefa` = now and a displayed time of zero; the state invariant holds afterwards |
| `TesteTimer.Pause` | teste.py:57-63 | only a running timer is affected; it becomes pausado with the displayed time unchanged; the state invariant is kept |
| `TesteTimer.Resume` | teste.py:69-74 | only a paused timer is affected; it becomes rodando with `inicio_tarefa` = now, `acumulado` and the displayed time unchanged; the state invariant is kept |
| `TesteTimer.Finish` | teste.py:80-100 | when stopped nothing changes; otherwise exactly one task is appended after the unchanged earlier ones, with the given activity, the formatted elapsed time and the clock's time of day; the timer is reset to parado with `inicio_tarefa` unset and `acumulado` = 0 |
| `TesteTimer.FinishRunningIsPauseThenFinish` | teste.py:83-85 | finishing while running saves what pausing at that moment and then finishing would |
| `TesteTimer.CyclesBankRunTime` | teste.py:57-74 | from a paused timer, each Continuar/Pausar pair banks exactly the length of its interval and leaves the timer paused |
| `TesteTimer.RunCycleBanksRunTime` | teste.py:43-74 | from any consistent state and a non-blank label, Iniciar → Pausar → (Continuar → Pausar)* leaves the timer paused with exactly the sum of the running intervals banked, nothing from before Iniciar |
| `TesteTimer.FinishRecordsRunTime` | teste.py:43-100 | from any consistent state, Iniciar → Pausar → (Continuar → Pausar)* → Finalizar appends one task whose duration reads back as the sum of all running intervals, and resets the timer |
| `TesteTimer.FinishReadsBack` | teste.py:80-91 | the duration text of the task Finalizar appends reads back as the time counted at that moment |
| `TesteTimer.ResumeThenFinish` | teste.py:69-91 | Continuar on a paused timer and a later Finalizar save the banked time plus the stretch since Continuar |
| `TesteTimer.FinishWhileRunningRecordsRunTime` | teste.py:43-100 | Iniciar → Pausar → (Continuar → Pausar)* → Continuar → Finalizar while running saves a task whose duration reads back as the sum of the paused intervals plus the last running stretch |
| `TesteTimer.Session.constructor` | teste.py:11-22 | a new page starts parado, with no start time, nothing banked and no tasks |
| `TesteTimer.Session.Iniciar` | teste.py:43-51 | the fields become `Start` of the old fields, the invariant is kept, and the task list is unchanged |
| `TesteTimer.Session.Pausar` | teste.py:57-63 | the fields become `Pause` of the old fields, the invariant is kept, and the task list is unchanged |
| `TesteTimer.Session.Continuar` | teste.py:69-74 | the fields become `Resume` of the old fields, the invariant is kept, and the task list is unchanged |
| `TesteTimer.Session.Finalizar` | teste.py:80-100 | the fields and the task list together become `Finish` of the old ones |
| `TesteTimer.Session.ShowElapsed` | teste.py:106-114 | returns the displayed time, which is present exactly when the status is not parado, and changes no field |

Behaviour of the code worth noting:

- In `app.py`, INICIAR is also the resume button. It does not reset
  `tempo_acumulado`.
- PAUSAR does not clear `inicio_tempo`.
- Pressing INICIAR while running restarts the current interval.
- A command given in a state where it does not apply changes nothing and
  shows no message.

## Left out

- Page rendering, CSS, theme-file creation, the history table, the bar chart and the detail table are not modelled (app.py:12-78, 229-250, 299-311, 358-414). They are presentation only.
- The busy-wait refresh loop (app.py:303-307), `time.sleep` and `st.rerun` are left out. They are blocking presentation loops. The value they show is `Elapsed`.
- The login form, the password comparison and `usuarios.json` are left out because they are external I/O. `Session.Login` models only a successful login. The display name in the manager's selector is a parameter.
- CSV and pandas mechanics are left out. The file is the field `ActivityFile.rows`. `pd.to_numeric(..., errors='coerce')` has no counterpart, because `segundos_totais` is typed.
- The clock is whole seconds. Float timestamps, `int()` truncation, and the microseconds of `st.time_input` values are not modelled. The source's two clock reads in one handler are a single `now`.
- Time zones are not modelled: a day is `now / 86400` and a time of day is `now % 86400`. `hora_inicio` and `hora_fim` hold the time of day their `%H:%M:%S` text denotes, not the text itself.
- The clock is assumed never to go back before a time the timer holds (`NotBefore`, a precondition of every command). Without it, `now - inicio_tempo` could be negative.
- `formatar_tempo` is modelled for non-negative durations only. Every duration here is a natural number.
- The manager's date list (`sorted(df["data"].unique())`) is not modelled. The chosen day is a parameter of `ManagerTotal`.
- The concurrent read-modify-write of the shared CSV file and the lost updates it allows are left out, as is any other concurrency.
- `gerente.py` is not part of this model. It is an HTTP GET and a table display.
- `SelectedUserIdRoundTrip` and `ManagerAgreesWithEmployee` hold only for user ids without '(' or ')'. For other ids, `split("(")[-1].replace(")", "")` does not recover the id; see the second row of Findings.

## Findings

| source | as written | input that shows it | evidently intended | confidence | as-written member | corrected member |
|---|---|---|---|---|---|---|
| app.py:196-200 | "Sair" resets only `timer_status`; `tempo_acumulado`, `inicio_tempo` and `primeiro_inicio` survive the logout | INICIAR at 5, PAUSAR at 105, Sair, log in again, INICIAR at 1000, FINALIZAR at 1010: the row records 110 s for 10 s of work, and its start time is the pre-logout first start | logout resets the whole timer, as FINALIZAR does (app.py:291-294) | medium, not executed | `AppTimer.LogoutLeaksBankedTime` | `AppTimer.LogoutResetStartsFresh` |
| app.py:400 | the selector entry is "Name (uid)" and the id is read back with `split("(")[-1].replace(")", "")`, which keeps only the text after the last '(' | user id "a(1)": its entry "Ana (a(1))" is read back as "1", so the manager's total counts user "1" instead | the selection yields the user id itself | low, not executed | `ActivityStore.ParenthesisedIdMisread` | `ActivityStore.ManagerByIdAgreesWithEmployee` |

`AppTimer.Session.Sair` keeps the behaviour of the code as written. The
corrected reset is `AppTimer.LogoutReset`. The clean-stop invariant `Clean`
holds for the initial state and is kept by `Start`, `Pause`, `Finish` and
`LogoutReset`, but not by `Logout`.
