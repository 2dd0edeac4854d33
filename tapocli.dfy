/**
 * The wrapper around the `tapo2` helper binary: where the helper lives, the
 * argument vector it is started with, how a finished run is classified into
 * stdout or one of five errors, and the `info` query with its bounded retry
 * on empty output and its JSON gate.
 *
 * The helper process is an oracle: `runs[i]` is the outcome of the i-th
 * invocation, either a timeout or the captured stdout and stderr.
 */
module Tapocli {
  import opened Wrappers
  import opened Strings
  import opened Json

  /** The integration's domain, the directory the component is installed in. */
  const DOMAIN := "tapo_p105"

  /** `info` starts the helper at most this many times. */
  const MaxAttempts := 5

  /** The five error classes the wrapper raises. */
  datatype TapoError =
    | InvalidIpError        // the helper did not finish within its timeout
    | AuthError             // stderr mentions "Login failed"
    | CannotConnectError    // stderr mentions "tapo2.h"
    | UnknownError          // any other non-empty stderr
    | InvalidResponseError  // `info` output is not JSON

  /** What one run of the helper gave back. */
  datatype RunOutcome =
    | Timeout
    | Done(stdout: string, stderr: string)

  /** The helper's command vocabulary. */
  datatype Command = Info | On | Off
  {
    function Word(): (w: string)
      ensures Info? <==> w == "info"
      ensures On? <==> w == "on"
      ensures Off? <==> w == "off"
    {
      match this
      case Info => "info"
      case On => "on"
      case Off => "off"
    }
  }

  /** The spellings `pathlib` reads as the current directory `.`. */
  predicate IsCurrentDir(base: string)
  {
    base == "" || base == "." || base == "./"
  }

  /**
   * `Path(base) / name` for a single relative component `name`: the current
   * directory disappears, a trailing `/` is reused, and otherwise one `/`
   * separates the two.
   */
  function Join(base: string, name: string): (r: string)
    ensures IsCurrentDir(base) ==> r == name
    ensures !IsCurrentDir(base) && base[|base| - 1] == '/' ==> r == base + name
    ensures !IsCurrentDir(base) && base[|base| - 1] != '/' ==> r == base + "/" + name
    ensures |name| > 0 ==> |r| > 0 && r[|r| - 1] == name[|name| - 1]
  {
    if IsCurrentDir(base) then name
    else if base[|base| - 1] == '/' then base + name
    else base + "/" + name
  }

  /** `str(Path(configPath) / "custom_components" / DOMAIN / "bin" / "tapo2")`. */
  function HelperPath(configPath: string): (p: string)
    ensures IsCurrentDir(configPath) ==>
      p == "custom_components/tapo_p105/bin/tapo2"
    ensures !IsCurrentDir(configPath) && configPath[|configPath| - 1] != '/' ==>
      p == configPath + "/custom_components/tapo_p105/bin/tapo2"
    ensures !IsCurrentDir(configPath) && configPath[|configPath| - 1] == '/' ==>
      p == configPath + "custom_components/tapo_p105/bin/tapo2"
  {
    var a := Join(configPath, "custom_components");
    JoinTail(a);
    JoinBase(configPath);
    Join(Join(Join(a, DOMAIN), "bin"), "tapo2")
  }

  lemma JoinBase(c: string)
    ensures IsCurrentDir(c) ==>
      Join(c, "custom_components") + "/tapo_p105/bin/tapo2" == "custom_components/tapo_p105/bin/tapo2"
    ensures !IsCurrentDir(c) && c[|c| - 1] != '/' ==>
      Join(c, "custom_components") + "/tapo_p105/bin/tapo2" == c + "/custom_components/tapo_p105/bin/tapo2"
    ensures !IsCurrentDir(c) && c[|c| - 1] == '/' ==>
      Join(c, "custom_components") + "/tapo_p105/bin/tapo2" == c + "custom_components/tapo_p105/bin/tapo2"
  {
  }

  lemma JoinTail(a: string)
    requires |a| > 0 && a[|a| - 1] == 's'
    ensures Join(Join(Join(a, DOMAIN), "bin"), "tapo2") == a + "/tapo_p105/bin/tapo2"
  {
    var b := a + "/" + DOMAIN;
    var c := b + "/" + "bin";
    assert Join(a, DOMAIN) == b;
    assert Join(b, "bin") == c;
    assert Join(c, "tapo2") == c + "/" + "tapo2";
    assert c + "/" + "tapo2" == a + ("/" + DOMAIN + "/" + "bin" + "/" + "tapo2");
  }

  /**
   * `_exec_tapocli` on a finished run: a timeout is an invalid address
   * whatever was captured; otherwise non-empty stderr is searched for
   * "Login failed", then for "tapo2.h", and falls back to an unknown error;
   * empty stderr hands back stdout.
   */
  function Classify(o: RunOutcome): (r: Result<string, TapoError>)
    ensures o.Timeout? ==> r == Err(InvalidIpError)
    ensures o.Done? && o.stderr == "" ==> r == Ok(o.stdout)
    ensures o.Done? && o.stderr != "" && Contains(o.stderr, "Login failed") ==>
      r == Err(AuthError)
    ensures (o.Done? && o.stderr != "" && !Contains(o.stderr, "Login failed") &&
             Contains(o.stderr, "tapo2.h")) ==> r == Err(CannotConnectError)
    ensures (o.Done? && o.stderr != "" && !Contains(o.stderr, "Login failed") &&
             !Contains(o.stderr, "tapo2.h")) ==> r == Err(UnknownError)
    ensures r.Err? ==> r.error != InvalidResponseError
  {
    match o
    case Timeout => Err(InvalidIpError)
    case Done(stdout, stderr) =>
      FindFindsExactly(stderr, "Login failed");
      FindFindsExactly(stderr, "tapo2.h");
      if stderr != "" then
        if Find(stderr, "Login failed") >= 0 then Err(AuthError)
        else if Find(stderr, "tapo2.h") >= 0 then Err(CannotConnectError)
        else Err(UnknownError)
      else Ok(stdout)
  }

  /** A run that `info` retries: no error and nothing on stdout. */
  predicate Continues(o: RunOutcome)
  {
    Classify(o) == Ok("")
  }

  lemma ContinuesIsEmptyRun(o: RunOutcome)
    ensures Continues(o) <==> o == Done("", "")
  {
  }

  /** The number of helper runs `info` makes when the runs from index `i` on are still to come. */
  function AttemptsFrom(runs: seq<RunOutcome>, i: nat): (n: nat)
    requires i < MaxAttempts <= |runs|
    ensures i < n <= MaxAttempts
    ensures forall j :: i <= j < n - 1 ==> Continues(runs[j])
    ensures n < MaxAttempts ==> !Continues(runs[n - 1])
    decreases MaxAttempts - i
  {
    if i == MaxAttempts - 1 || !Continues(runs[i]) then i + 1
    else AttemptsFrom(runs, i + 1)
  }

  /**
   * The number of helper runs `info` makes: the first run that is not an
   * empty success stops it, and it never goes past `MaxAttempts`.
   */
  function Attempts(runs: seq<RunOutcome>): (n: nat)
    requires MaxAttempts <= |runs|
    ensures 1 <= n <= MaxAttempts
  {
    AttemptsFrom(runs, 0)
  }

  /** The three facts that define `Attempts` pin it down. */
  lemma AttemptsUnique(runs: seq<RunOutcome>, n: nat)
    requires MaxAttempts <= |runs|
    requires 1 <= n <= MaxAttempts
    requires forall j :: 0 <= j < n - 1 ==> Continues(runs[j])
    requires n < MaxAttempts ==> !Continues(runs[n - 1])
    ensures Attempts(runs) == n
  {
  }

  /** The JSON gate: stdout that does not decode is an invalid response. */
  function Decode(out: string, parse: Parser): (r: Result<Json, TapoError>)
    ensures r.Ok? <==> parse(out).Some?
    ensures r.Ok? ==> r.value == parse(out).value
    ensures r.Err? ==> r.error == InvalidResponseError
  {
    match parse(out)
    case Some(j) => Ok(j)
    case None => Err(InvalidResponseError)
  }

  /**
   * What `info` gives back: the error of the last run it made, or that
   * run's stdout passed through the JSON gate. A returned value is the
   * decoding of the last run's stdout, made with empty stderr; a raised
   * error is either that run's classification or the gate's.
   */
  function InfoResult(runs: seq<RunOutcome>, parse: Parser): (r: Result<Json, TapoError>)
    requires MaxAttempts <= |runs|
    ensures var last := runs[Attempts(runs) - 1];
      r.Ok? ==> last.Done? && last.stderr == "" && parse(last.stdout) == Some(r.value)
    ensures var last := runs[Attempts(runs) - 1];
      r.Err? && r.error == InvalidResponseError ==>
        last.Done? && last.stderr == "" && parse(last.stdout).None?
    ensures var last := runs[Attempts(runs) - 1];
      r.Err? && r.error != InvalidResponseError ==> Classify(last) == Err(r.error)
  {
    match Classify(runs[Attempts(runs) - 1])
    case Err(e) => Err(e)
    case Ok(out) => Decode(out, parse)
  }

  /** A run that raises stops `info` at once with that error. */
  lemma {:induction false} InfoErrorAbortsAt(runs: seq<RunOutcome>, parse: Parser, k: nat)
    requires MaxAttempts <= |runs| && k < MaxAttempts
    requires forall j :: 0 <= j < k ==> Continues(runs[j])
    requires Classify(runs[k]).Err?
    ensures Attempts(runs) == k + 1
    ensures InfoResult(runs, parse) == Err(Classify(runs[k]).error)
  {
    AttemptsUnique(runs, k + 1);
  }

  /** The first non-empty stdout stops `info`, and its decoding is the result. */
  lemma {:induction false} InfoFirstOutput(runs: seq<RunOutcome>, parse: Parser, k: nat, out: string)
    requires MaxAttempts <= |runs| && k < MaxAttempts
    requires forall j :: 0 <= j < k ==> Continues(runs[j])
    requires runs[k] == Done(out, "") && out != ""
    ensures Attempts(runs) == k + 1
    ensures parse(out).Some? ==> InfoResult(runs, parse) == Ok(parse(out).value)
    ensures parse(out).None? ==> InfoResult(runs, parse) == Err(InvalidResponseError)
  {
    AttemptsUnique(runs, k + 1);
  }

  /**
   * Five empty runs exhaust the retries; the empty stdout left over does not
   * decode, so `info` raises an invalid response.
   */
  lemma {:induction false} InfoAllEmpty(runs: seq<RunOutcome>, parse: Parser)
    requires MaxAttempts <= |runs|
    requires forall j :: 0 <= j < MaxAttempts ==> runs[j] == Done("", "")
    requires RejectsEmpty(parse)
    ensures Attempts(runs) == MaxAttempts
    ensures InfoResult(runs, parse) == Err(InvalidResponseError)
  {
    forall j | 0 <= j < MaxAttempts - 1 ensures Continues(runs[j]) {
      ContinuesIsEmptyRun(runs[j]);
    }
    AttemptsUnique(runs, MaxAttempts);
  }

  /** The wrapper: the helper's path and the credentials, fixed at construction. */
  class TapoCli {
    const helperPath: string
    const ip: string
    const username: string
    const password: string

    constructor (configPath: string, ip: string, username: string, password: string)
      ensures helperPath == HelperPath(configPath)
      ensures this.ip == ip && this.username == username && this.password == password
    {
      helperPath := HelperPath(configPath);
      this.ip := ip;
      this.username := username;
      this.password := password;
    }

    /**
     * `_exec_tapocli(command)`: starts the helper once, with the path, the
     * address, the credentials and the command word in that order, and
     * classifies what the run `o` gave back.
     */
    method ExecTapocli(command: Command, o: RunOutcome) returns (r: Result<string, TapoError>, argv: seq<string>)
      ensures argv == [helperPath, ip, username, password, command.Word()]
      ensures r == Classify(o)
    {
      argv := [helperPath, ip, username, password, command.Word()];
      if o.Timeout? {
        return Err(InvalidIpError), argv;
      }
      if o.stderr != "" {
        if Find(o.stderr, "Login failed") >= 0 {
          return Err(AuthError), argv;
        }
        if Find(o.stderr, "tapo2.h") >= 0 {
          return Err(CannotConnectError), argv;
        }
        return Err(UnknownError), argv;
      }
      r := Ok(o.stdout);
    }

    /**
     * `info()`: runs the helper while its stdout is empty, at most
     * `MaxAttempts` times, lets any raised error through at once, and
     * decodes the last stdout. `calls` are the argument vectors issued, in
     * order; `runs[i]` answers the i-th.
     */
    method Info(runs: seq<RunOutcome>, parse: Parser) returns (r: Result<Json, TapoError>, calls: seq<seq<string>>)
      requires MaxAttempts <= |runs|
      ensures 1 <= |calls| <= MaxAttempts
      ensures |calls| == Attempts(runs)
      ensures forall c :: c in calls ==> c == [helperPath, ip, username, password, "info"]
      ensures r == InfoResult(runs, parse)
    {
      var res := "";
      var execCount := 0;
      calls := [];
      while res == "" && execCount < MaxAttempts
        invariant 0 <= execCount <= MaxAttempts
        invariant |calls| == execCount
        invariant forall c :: c in calls ==> c == [helperPath, ip, username, password, "info"]
        invariant forall j :: 0 <= j < execCount - 1 ==> Continues(runs[j])
        invariant execCount == 0 ==> res == ""
        invariant execCount > 0 ==> Classify(runs[execCount - 1]) == Ok(res)
      {
        var out, argv := ExecTapocli(Command.Info, runs[execCount]);
        calls := calls + [argv];
        execCount := execCount + 1;
        if out.Err? {
          AttemptsUnique(runs, execCount);
          return Err(out.error), calls;
        }
        res := out.value;
      }
      AttemptsUnique(runs, execCount);
      r := Decode(res, parse);
    }

    /** `on()`: one run of the helper with "on"; its stdout is discarded. */
    method TurnOn(o: RunOutcome) returns (r: Result<(), TapoError>, argv: seq<string>)
      ensures argv == [helperPath, ip, username, password, "on"]
      ensures r.Ok? <==> Classify(o).Ok?
      ensures r.Err? ==> r.error == Classify(o).error
    {
      var out;
      out, argv := ExecTapocli(Command.On, o);
      r := if out.Ok? then Ok(()) else Err(out.error);
    }

    /** `off()`: one run of the helper with "off"; its stdout is discarded. */
    method TurnOff(o: RunOutcome) returns (r: Result<(), TapoError>, argv: seq<string>)
      ensures argv == [helperPath, ip, username, password, "off"]
      ensures r.Ok? <==> Classify(o).Ok?
      ensures r.Err? ==> r.error == Classify(o).error
    {
      var out;
      out, argv := ExecTapocli(Command.Off, o);
      r := if out.Ok? then Ok(()) else Err(out.error);
    }
  }
}
