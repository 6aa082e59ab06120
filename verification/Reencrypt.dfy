/** Moving the stored provider configurations to the active data key, and reporting on it. */
module Reencrypt {
  import opened Common

  type Config = map<string, string>

  /** The foreign parts: trimming, JSON and the cipher, whose randomness is an argument. */
  datatype Env = Env(
    trim: string -> string,
    parse: string -> Option<Config>,
    marshal: Config -> string,
    seal: (string, string, nat) -> Option<string>,
    open: (string, string) -> Option<string>)

  const PREFIX := "enc:v2:"

  /** Opening undoes sealing under the same secret, and what was read from JSON survives another trip. */
  ghost predicate Sound(env: Env) {
    && env.trim("") == "" && (forall s :: env.trim(env.trim(s)) == env.trim(s))
    && (forall k, text, r :: env.seal(k, text, r).Some? ==>
      PREFIX <= env.seal(k, text, r).value == env.trim(env.seal(k, text, r).value) && env.open(k, env.seal(k, text, r).value) == Some(text))
    && (forall text :: env.parse(text).Some? ==> env.parse(env.marshal(env.parse(text).value)) == env.parse(text))
  }

  /** Nothing opens under another secret than it was sealed with. */
  ghost predicate Separate(env: Env) {
    forall k, text, r, k' :: env.seal(k, text, r).Some? && env.open(k', env.seal(k, text, r).value).Some? ==> k' == k
  }

  datatype Settings = Settings(active: string, legacy: seq<string>)

  function NonBlank(env: Env, values: seq<string>): seq<string> {
    if values == [] then []
    else
      var value := env.trim(values[|values| - 1]);
      NonBlank(env, values[..|values| - 1]) + if value == "" then [] else [value]
  }

  /** Every secret that may open a value, the active one first. */
  function Secrets(env: Env, cfg: Settings): seq<string> {
    (if env.trim(cfg.active) == "" then [] else [env.trim(cfg.active)]) + NonBlank(env, cfg.legacy)
  }

  method DataEncryptionSecrets(env: Env, cfg: Settings) returns (secrets: seq<string>)
    ensures secrets == Secrets(env, cfg)
  {
    secrets := [];
    if env.trim(cfg.active) != "" {
      secrets := secrets + [env.trim(cfg.active)];
    }
    ghost var first := secrets;
    for i := 0 to |cfg.legacy|
      invariant secrets == first + NonBlank(env, cfg.legacy[..i])
    {
      assert cfg.legacy[..i + 1][..i] == cfg.legacy[..i];
      var value := env.trim(cfg.legacy[i]);
      if value != "" {
        secrets := secrets + [value];
      }
    }
    assert cfg.legacy[..|cfg.legacy|] == cfg.legacy;
  }

  /** The text under the first secret that opens the value; empty secrets are not tried. */
  function OpenedBy(env: Env, secrets: seq<string>, value: string): Option<string> {
    if secrets == [] then None
    else if secrets[0] != "" && env.open(secrets[0], value).Some? then env.open(secrets[0], value)
    else OpenedBy(env, secrets[1..], value)
  }

  method DecryptWithSecrets(env: Env, secrets: seq<string>, value: string) returns (text: Option<string>)
    ensures text == OpenedBy(env, secrets, value)
  {
    for i := 0 to |secrets|
      invariant OpenedBy(env, secrets[i..], value) == OpenedBy(env, secrets, value)
    {
      if secrets[i] != "" && env.open(secrets[i], value).Some? {
        return env.open(secrets[i], value);
      }
      assert secrets[i..][1..] == secrets[i + 1..];
    }
    text := None;
  }

  function Decrypted(env: Env, secrets: seq<string>, value: string): Option<Config> {
    var trimmed := env.trim(value);
    if trimmed == "" then Some(map[])
    else
      var text := OpenedBy(env, secrets, trimmed);
      if text.None? then None else env.parse(text.value)
  }

  predicate Latest(env: Env, value: string) {
    PREFIX <= env.trim(value)
  }

  function Encrypted(env: Env, cfg: Settings, config: Config, r: nat): Option<string> {
    env.seal(cfg.active, env.marshal(config), r)
  }

  datatype Kind = Blank | Current | Candidate | Unreadable

  function KindOf(env: Env, cfg: Settings, value: string): Kind {
    if env.trim(value) == "" then Blank
    else if Latest(env, value) && Decrypted(env, [cfg.active], value).Some? then Current
    else if Decrypted(env, Secrets(env, cfg), value).Some? then Candidate
    else Unreadable
  }

  datatype Provider = Provider(id: nat, value: string)

  datatype Result = Updated | Skipped | Failed

  /** The randomness of the encryption of one row and whether the store takes the row. */
  datatype Trial = Trial(r: nat, stored: bool)

  /** What the run makes of one row. */
  function Treated(env: Env, cfg: Settings, value: string, dryRun: bool, trial: Trial): (Result, string) {
    match KindOf(env, cfg, value)
    case Blank => (Skipped, value)
    case Current => (Skipped, value)
    case Unreadable => (Failed, value)
    case Candidate =>
      var sealed := Encrypted(env, cfg, Decrypted(env, Secrets(env, cfg), value).value, trial.r);
      if dryRun then (Updated, value)
      else if sealed.None? || !trial.stored then (Failed, value)
      else (Updated, sealed.value)
  }

  function Tally<T(==)>(xs: seq<T>, x: T): nat {
    if xs == [] then 0 else Tally(xs[..|xs| - 1], x) + if xs[|xs| - 1] == x then 1 else 0
  }

  function Kinds(env: Env, cfg: Settings, rows: seq<Provider>): seq<Kind> {
    seq(|rows|, i requires 0 <= i < |rows| => KindOf(env, cfg, rows[i].value))
  }

  function Results(env: Env, cfg: Settings, rows: seq<Provider>, dryRun: bool, trials: seq<Trial>): seq<Result>
    requires |trials| == |rows|
  {
    seq(|rows|, i requires 0 <= i < |rows| => Treated(env, cfg, rows[i].value, dryRun, trials[i]).0)
  }

  function After(env: Env, cfg: Settings, rows: seq<Provider>, dryRun: bool, trials: seq<Trial>): seq<Provider>
    requires |trials| == |rows|
  {
    seq(|rows|, i requires 0 <= i < |rows| => rows[i].(value := Treated(env, cfg, rows[i].value, dryRun, trials[i]).1))
  }

  lemma TallyLast<T>(xs: seq<T>, x: T, k: nat)
    requires k < |xs|
    ensures Tally(xs[..k + 1], x) == Tally(xs[..k], x) + if xs[k] == x then 1 else 0
  {
    assert xs[..k + 1][..k] == xs[..k];
  }

  /** The rotation status: how many rows another key opens, and how many none does. */
  method Status(env: Env, cfg: Settings, rows: seq<Provider>) returns (candidates: nat, failures: nat)
    ensures candidates == Tally(Kinds(env, cfg, rows), Candidate)
    ensures failures == Tally(Kinds(env, cfg, rows), Unreadable)
  {
    ghost var kinds := Kinds(env, cfg, rows);
    candidates, failures := 0, 0;
    for i := 0 to |rows|
      invariant candidates == Tally(kinds[..i], Candidate) && failures == Tally(kinds[..i], Unreadable)
    {
      TallyLast(kinds, Candidate, i);
      TallyLast(kinds, Unreadable, i);
      var value := rows[i].value;
      if env.trim(value) == "" {
        continue;
      }
      if Latest(env, value) {
        if Decrypted(env, [cfg.active], value).Some? {
          continue;
        }
      }
      if Decrypted(env, Secrets(env, cfg), value).Some? {
        candidates := candidates + 1;
        continue;
      }
      failures := failures + 1;
    }
    assert kinds[..|rows|] == kinds;
  }

  datatype Report = Report(processed: nat, updated: nat, skipped: nat, failures: nat, failedIds: seq<nat>)

  function FailedIds(rows: seq<Provider>, results: seq<Result>): seq<nat>
    requires |rows| == |results|
  {
    if rows == [] then []
    else
      var n := |rows| - 1;
      FailedIds(rows[..n], results[..n]) + if results[n] == Failed then [rows[n].id] else []
  }

  ghost predicate Reports(report: Report, rows: seq<Provider>, kinds: seq<Kind>, results: seq<Result>)
    requires |rows| == |results|
  {
    && report.processed == |kinds| - Tally(kinds, Blank)
    && report.updated == Tally(results, Updated) && report.skipped == Tally(results, Skipped)
    && report.failures == Tally(results, Failed) && report.failedIds == FailedIds(rows, results)
  }

  lemma ReportsOneMore(report: Report, rows: seq<Provider>, kinds: seq<Kind>, results: seq<Result>, k: nat, report': Report)
    requires |rows| == |kinds| == |results| && k < |rows|
    requires Reports(report, rows[..k], kinds[..k], results[..k])
    requires report'.processed == report.processed + if kinds[k] == Blank then 0 else 1
    requires report'.updated == report.updated + if results[k] == Updated then 1 else 0
    requires report'.skipped == report.skipped + if results[k] == Skipped then 1 else 0
    requires report'.failures == report.failures + if results[k] == Failed then 1 else 0
    requires report'.failedIds == report.failedIds + if results[k] == Failed then [rows[k].id] else []
    ensures Reports(report', rows[..k + 1], kinds[..k + 1], results[..k + 1])
  {
    TallyLast(kinds, Blank, k);
    TallyLast(results, Updated, k);
    TallyLast(results, Skipped, k);
    TallyLast(results, Failed, k);
    assert rows[..k + 1][..k] == rows[..k] && results[..k + 1][..k] == results[..k];
  }

  class Providers {
    var rows: seq<Provider>

    /** Goes over a listing of the rows and writes each one it re-encrypts back; reports at most 20 ids. */
    method Reencrypt(env: Env, cfg: Settings, dryRun: bool, trials: seq<Trial>) returns (report: Report, shown: seq<nat>)
      requires |trials| == |rows|
      modifies this
      ensures rows == After(env, cfg, old(rows), dryRun, trials)
      ensures Reports(report, old(rows), Kinds(env, cfg, old(rows)), Results(env, cfg, old(rows), dryRun, trials))
      ensures shown == if |report.failedIds| > 20 then report.failedIds[..20] else report.failedIds
    {
      var items := rows;
      ghost var kinds := Kinds(env, cfg, items);
      ghost var results := Results(env, cfg, items, dryRun, trials);
      ghost var after := After(env, cfg, items, dryRun, trials);
      report := Report(0, 0, 0, 0, []);
      for i := 0 to |items|
        invariant |rows| == |items| && forall j :: 0 <= j < |items| ==> rows[j] == if j < i then after[j] else items[j]
        invariant Reports(report, items[..i], kinds[..i], results[..i])
      {
        ghost var before := report;
        var value;
        report, value := Treat(env, cfg, items[i], dryRun, trials[i], report);
        rows := rows[i := items[i].(value := value)];
        ReportsOneMore(before, items, kinds, results, i, report);
      }
      assert items[..|items|] == items && kinds[..|items|] == kinds && results[..|items|] == results;
      shown := if |report.failedIds| > 20 then report.failedIds[..20] else report.failedIds;
    }
  }

  /** One turn of the loop: the row's value afterwards and the counters. */
  method Treat(env: Env, cfg: Settings, item: Provider, dryRun: bool, trial: Trial, before: Report) returns (report: Report, value: string)
    ensures value == Treated(env, cfg, item.value, dryRun, trial).1
    ensures var result := Treated(env, cfg, item.value, dryRun, trial).0;
      && report.processed == before.processed + (if KindOf(env, cfg, item.value) == Blank then 0 else 1)
      && report.updated == before.updated + (if result == Updated then 1 else 0)
      && report.skipped == before.skipped + (if result == Skipped then 1 else 0)
      && report.failures == before.failures + (if result == Failed then 1 else 0)
      && report.failedIds == before.failedIds + (if result == Failed then [item.id] else [])
  {
    report, value := before, item.value;
    if env.trim(value) == "" {
      report := report.(skipped := report.skipped + 1);
      return;
    }
    report := report.(processed := report.processed + 1);
    if Latest(env, value) && Decrypted(env, [cfg.active], value).Some? {
      report := report.(skipped := report.skipped + 1);
      return;
    }
    var config := Decrypted(env, Secrets(env, cfg), value);
    if config.None? {
      report := report.(failures := report.failures + 1, failedIds := report.failedIds + [item.id]);
      return;
    }
    if dryRun {
      report := report.(updated := report.updated + 1);
      return;
    }
    var sealed := Encrypted(env, cfg, config.value, trial.r);
    if sealed.None? || !trial.stored {
      report := report.(failures := report.failures + 1, failedIds := report.failedIds + [item.id]);
      return;
    }
    value := sealed.value;
    report := report.(updated := report.updated + 1);
  }

  /** Every row is counted once. */
  lemma {:induction false} CountsAddUp(results: seq<Result>)
    ensures Tally(results, Updated) + Tally(results, Skipped) + Tally(results, Failed) == |results|
  {
    if results != [] {
      CountsAddUp(results[..|results| - 1]);
      match results[|results| - 1]
      case Updated =>
      case Skipped =>
      case Failed =>
    }
  }

  lemma {:induction false} SameTally<T, U>(xs: seq<T>, x: T, ys: seq<U>, y: U)
    requires |xs| == |ys| && forall i :: 0 <= i < |xs| ==> (xs[i] == x <==> ys[i] == y)
    ensures Tally(xs, x) == Tally(ys, y)
  {
    if xs != [] {
      SameTally(xs[..|xs| - 1], x, ys[..|xs| - 1], y);
    }
  }

  /** A dry run announces what the status reports and changes nothing. */
  lemma DryRunIsStatus(env: Env, cfg: Settings, rows: seq<Provider>, trials: seq<Trial>)
    requires |trials| == |rows|
    ensures Tally(Results(env, cfg, rows, true, trials), Updated) == Tally(Kinds(env, cfg, rows), Candidate)
    ensures Tally(Results(env, cfg, rows, true, trials), Failed) == Tally(Kinds(env, cfg, rows), Unreadable)
    ensures After(env, cfg, rows, true, trials) == rows
  {
    SameTally(Results(env, cfg, rows, true, trials), Updated, Kinds(env, cfg, rows), Candidate);
    SameTally(Results(env, cfg, rows, true, trials), Failed, Kinds(env, cfg, rows), Unreadable);
  }

  lemma {:induction false} NonBlankTrimmed(env: Env, values: seq<string>)
    requires Sound(env)
    ensures forall k :: k in NonBlank(env, values) ==> k != "" && env.trim(k) == k
  {
    if values != [] {
      NonBlankTrimmed(env, values[..|values| - 1]);
    }
  }

  lemma {:induction false} OnlyTheSealerOpens(env: Env, secrets: seq<string>, k: string, text: string, r: nat)
    requires Separate(env) && env.seal(k, text, r).Some? && k !in secrets
    ensures OpenedBy(env, secrets, env.seal(k, text, r).value) == None
  {
    if secrets != [] {
      assert secrets[0] in secrets;
      OnlyTheSealerOpens(env, secrets[1..], k, text, r);
    }
  }

  /** The active secret reads back what it seals: as it is, unless it is empty. */
  predicate Proper(env: Env, cfg: Settings) {
    cfg.active != "" && env.trim(cfg.active) == cfg.active
  }

  lemma SealedIsCurrent(env: Env, cfg: Settings, text: string, r: nat)
    requires Sound(env) && env.parse(text).Some? && cfg.active != ""
    requires Encrypted(env, cfg, env.parse(text).value, r).Some?
    ensures KindOf(env, cfg, Encrypted(env, cfg, env.parse(text).value, r).value) == Current
  {
    var sealed := Encrypted(env, cfg, env.parse(text).value, r).value;
    assert OpenedBy(env, [cfg.active], sealed) == env.open(cfg.active, sealed);
  }

  lemma SealedWithoutSecretIsLost(env: Env, cfg: Settings, config: Config, r: nat)
    requires Sound(env) && Separate(env) && cfg.active == "" && Encrypted(env, cfg, config, r).Some?
    ensures KindOf(env, cfg, Encrypted(env, cfg, config, r).value) == Unreadable
  {
    NonBlankTrimmed(env, cfg.legacy);
    OnlyTheSealerOpens(env, Secrets(env, cfg), "", env.marshal(config), r);
    var sealed := Encrypted(env, cfg, config, r).value;
    assert OpenedBy(env, [""], sealed) == OpenedBy(env, [], sealed);
  }

  /** A re-encrypted row reads back as before exactly when the active secret is neither empty nor padded. */
  lemma ReadableIff(env: Env, cfg: Settings, text: string, r: nat)
    requires Sound(env) && Separate(env) && env.parse(text).Some?
    requires Encrypted(env, cfg, env.parse(text).value, r).Some?
    ensures Decrypted(env, Secrets(env, cfg), Encrypted(env, cfg, env.parse(text).value, r).value) == env.parse(text) <==> Proper(env, cfg)
  {
    var sealed := Encrypted(env, cfg, env.parse(text).value, r).value;
    if Proper(env, cfg) {
      assert Secrets(env, cfg)[0] == cfg.active;
    } else {
      NonBlankTrimmed(env, cfg.legacy);
      OnlyTheSealerOpens(env, Secrets(env, cfg), cfg.active, env.marshal(env.parse(text).value), r);
    }
  }

  /** Whatever fails on the way, a proper active secret leaves every row reading as it did. */
  lemma RunKeepsPlaintexts(env: Env, cfg: Settings, rows: seq<Provider>, dryRun: bool, trials: seq<Trial>, i: nat)
    requires Sound(env) && Proper(env, cfg) && |trials| == |rows| && i < |rows|
    ensures Decrypted(env, Secrets(env, cfg), After(env, cfg, rows, dryRun, trials)[i].value) == Decrypted(env, Secrets(env, cfg), rows[i].value)
  {
    var value := rows[i].value;
    if Treated(env, cfg, value, dryRun, trials[i]).1 != value {
      var text := OpenedBy(env, Secrets(env, cfg), env.trim(value)).value;
      var sealed := Encrypted(env, cfg, env.parse(text).value, trials[i].r).value;
      assert Secrets(env, cfg)[0] == cfg.active;
      assert OpenedBy(env, Secrets(env, cfg), sealed) == env.open(cfg.active, sealed);
    }
  }

  /** Neither the cipher nor the store fails on a row that needs the run. */
  ghost predicate Smooth(env: Env, cfg: Settings, rows: seq<Provider>, trials: seq<Trial>)
    requires |trials| == |rows|
  {
    forall i :: 0 <= i < |rows| && KindOf(env, cfg, rows[i].value) == Candidate ==> Treated(env, cfg, rows[i].value, false, trials[i]).0 == Updated
  }

  lemma TreatedKind(env: Env, cfg: Settings, value: string, trial: Trial)
    requires Sound(env) && (cfg.active == "" ==> Separate(env))
    requires KindOf(env, cfg, value) == Candidate ==> Treated(env, cfg, value, false, trial).0 == Updated
    ensures var later := KindOf(env, cfg, Treated(env, cfg, value, false, trial).1);
      later == if KindOf(env, cfg, value) != Candidate then KindOf(env, cfg, value) else if cfg.active != "" then Current else Unreadable
  {
    if KindOf(env, cfg, value) == Candidate {
      var text := OpenedBy(env, Secrets(env, cfg), env.trim(value)).value;
      if cfg.active != "" {
        SealedIsCurrent(env, cfg, text, trial.r);
      } else {
        SealedWithoutSecretIsLost(env, cfg, env.parse(text).value, trial.r);
      }
    }
  }

  /** After a smooth run no candidate is left and the rows that were unreadable still are, alone. */
  lemma RunConverges(env: Env, cfg: Settings, rows: seq<Provider>, trials: seq<Trial>)
    requires Sound(env) && cfg.active != "" && |trials| == |rows| && Smooth(env, cfg, rows, trials)
    ensures Tally(Kinds(env, cfg, After(env, cfg, rows, false, trials)), Candidate) == 0
    ensures Tally(Kinds(env, cfg, After(env, cfg, rows, false, trials)), Unreadable) == Tally(Kinds(env, cfg, rows), Unreadable)
  {
    var was, now := Kinds(env, cfg, rows), Kinds(env, cfg, After(env, cfg, rows, false, trials));
    forall i | 0 <= i < |rows|
      ensures now[i] == if was[i] == Candidate then Current else was[i]
    {
      TreatedKind(env, cfg, rows[i].value, trials[i]);
    }
    SameTally(now, Unreadable, was, Unreadable);
    NoneTallied(now, Candidate);
  }

  /** With an empty active secret the rows it re-encrypts join the unreadable ones. */
  lemma EmptySecretLosesRows(env: Env, cfg: Settings, rows: seq<Provider>, trials: seq<Trial>)
    requires Sound(env) && Separate(env) && cfg.active == "" && |trials| == |rows| && Smooth(env, cfg, rows, trials)
    ensures Tally(Kinds(env, cfg, After(env, cfg, rows, false, trials)), Unreadable) == Tally(Kinds(env, cfg, rows), Unreadable) + Tally(Kinds(env, cfg, rows), Candidate)
  {
    var was, now := Kinds(env, cfg, rows), Kinds(env, cfg, After(env, cfg, rows, false, trials));
    forall i | 0 <= i < |rows|
      ensures now[i] == if was[i] == Candidate then Unreadable else was[i]
    {
      TreatedKind(env, cfg, rows[i].value, trials[i]);
    }
    MergedTally(was, now, Candidate, Unreadable);
  }

  /** The same rows stay unreadable exactly when there is an active secret or nothing to re-encrypt. */
  lemma FailuresStayIff(env: Env, cfg: Settings, rows: seq<Provider>, trials: seq<Trial>)
    requires Sound(env) && Separate(env) && |trials| == |rows| && Smooth(env, cfg, rows, trials)
    ensures
      Tally(Kinds(env, cfg, After(env, cfg, rows, false, trials)), Unreadable) == Tally(Kinds(env, cfg, rows), Unreadable)
      <==> cfg.active != "" || Tally(Kinds(env, cfg, rows), Candidate) == 0
  {
    if cfg.active != "" {
      RunConverges(env, cfg, rows, trials);
    } else {
      EmptySecretLosesRows(env, cfg, rows, trials);
    }
  }

  lemma {:induction false} NoneTallied<T>(xs: seq<T>, x: T)
    requires x !in xs
    ensures Tally(xs, x) == 0
  {
    if xs != [] {
      NoneTallied(xs[..|xs| - 1], x);
    }
  }

  lemma {:induction false} MergedTally<T>(was: seq<T>, now: seq<T>, x: T, y: T)
    requires |was| == |now| && x != y
    requires forall i :: 0 <= i < |was| ==> now[i] == if was[i] == x then y else was[i]
    ensures Tally(now, y) == Tally(was, y) + Tally(was, x)
  {
    if was != [] {
      MergedTally(was[..|was| - 1], now[..|was| - 1], x, y);
    }
  }

  // ---------- the secrets that a server starts with ----------

  /** The secret of the environment, trimmed; in development mode a generated one stands in for none. */
  function LoadedSecret(env: Env, value: string, devMode: bool, generated: string): string {
    if env.trim(value) != "" then env.trim(value) else if devMode then generated else ""
  }

  /** The configuration that a server starts with, unless validation reports the secret as missing. */
  function Loaded(env: Env, value: string, devMode: bool, generated: string, legacy: seq<string>): Option<Settings> {
    var secret := LoadedSecret(env, value, devMode, generated);
    if env.trim(secret) == "" then None else Some(Settings(secret, legacy))
  }

  /** Generated secrets are base64, without blanks; so an accepted secret is never empty or padded. */
  lemma LoadedIsProper(env: Env, value: string, devMode: bool, generated: string, legacy: seq<string>)
    requires Sound(env) && env.trim(generated) == generated && Loaded(env, value, devMode, generated, legacy).Some?
    ensures Proper(env, Loaded(env, value, devMode, generated, legacy).value)
  {
    var secret := LoadedSecret(env, value, devMode, generated);
    assert env.trim(env.trim(value)) == env.trim(value);
    assert env.trim(secret) == secret;
  }

  /**
   So on every server that starts, a real run leaves every row reading as it did, whatever
   fails on the way, and if nothing fails the next status has no candidates and the same
   failures.
   */
  lemma ServerRunConverges(
    env: Env, value: string, devMode: bool, generated: string, legacy: seq<string>, rows: seq<Provider>, trials: seq<Trial>)
    requires Sound(env) && env.trim(generated) == generated && Loaded(env, value, devMode, generated, legacy).Some?
    requires |trials| == |rows|
    ensures var cfg := Loaded(env, value, devMode, generated, legacy).value;
      var after := After(env, cfg, rows, false, trials);
      && (forall i :: 0 <= i < |rows| ==>
        Decrypted(env, Secrets(env, cfg), after[i].value) == Decrypted(env, Secrets(env, cfg), rows[i].value))
      && (Smooth(env, cfg, rows, trials) ==>
        && Tally(Kinds(env, cfg, after), Candidate) == 0
        && Tally(Kinds(env, cfg, after), Unreadable) == Tally(Kinds(env, cfg, rows), Unreadable))
  {
    LoadedIsProper(env, value, devMode, generated, legacy);
    var cfg := Loaded(env, value, devMode, generated, legacy).value;
    forall i | 0 <= i < |rows|
      ensures Decrypted(env, Secrets(env, cfg), After(env, cfg, rows, false, trials)[i].value) == Decrypted(env, Secrets(env, cfg), rows[i].value)
    {
      RunKeepsPlaintexts(env, cfg, rows, false, trials, i);
    }
    if Smooth(env, cfg, rows, trials) {
      RunConverges(env, cfg, rows, trials);
    }
  }

  // ---------- what a row counts as ----------

  lemma {:induction false} NonBlankMeans(env: Env, values: seq<string>, k: string)
    ensures k in NonBlank(env, values) <==> k != "" && exists i :: 0 <= i < |values| && env.trim(values[i]) == k
  {
    if values != [] {
      var n := |values| - 1;
      NonBlankMeans(env, values[..n], k);
      assert values == values[..n] + [values[n]];
    }
  }

  /** The secrets tried are the active one and every legacy one, trimmed, but for blank ones; the active one is tried first. */
  lemma SecretsMean(env: Env, cfg: Settings, k: string)
    ensures k in Secrets(env, cfg) <==>
      k != "" && (env.trim(cfg.active) == k || exists i :: 0 <= i < |cfg.legacy| && env.trim(cfg.legacy[i]) == k)
    ensures env.trim(cfg.active) != "" ==> Secrets(env, cfg) != [] && Secrets(env, cfg)[0] == env.trim(cfg.active)
  {
    NonBlankMeans(env, cfg.legacy, k);
  }

  predicate FirstOpens(env: Env, secrets: seq<string>, value: string, i: nat) {
    && i < |secrets| && secrets[i] != "" && env.open(secrets[i], value).Some?
    && forall j :: 0 <= j < i ==> secrets[j] == "" || env.open(secrets[j], value).None?
  }

  /** A value opens exactly if one of the secrets opens it, and then as the first of those does. */
  lemma {:induction false} OpenedByMeans(env: Env, secrets: seq<string>, value: string)
    ensures OpenedBy(env, secrets, value).Some? <==> exists i: nat :: FirstOpens(env, secrets, value, i)
    ensures forall i: nat :: FirstOpens(env, secrets, value, i) ==> OpenedBy(env, secrets, value) == env.open(secrets[i], value)
  {
    if secrets == [] {
    } else if secrets[0] != "" && env.open(secrets[0], value).Some? {
      assert FirstOpens(env, secrets, value, 0);
    } else {
      OpenedByMeans(env, secrets[1..], value);
      if i: nat :| FirstOpens(env, secrets[1..], value, i) {
        assert FirstOpens(env, secrets, value, i + 1);
      }
      forall i: nat | FirstOpens(env, secrets, value, i)
        ensures OpenedBy(env, secrets, value) == env.open(secrets[i], value)
      {
        assert FirstOpens(env, secrets[1..], value, i - 1);
      }
    }
  }

  /**
   A row is current exactly if it has the latest form and the active secret reads it, a
   candidate exactly if it is not and some secret does, and unreadable if none does.
   */
  lemma KindDecides(env: Env, cfg: Settings, value: string)
    ensures var text := env.trim(value);
      var byActive := cfg.active != "" && env.open(cfg.active, text).Some? && env.parse(env.open(cfg.active, text).value).Some?;
      var plain := OpenedBy(env, Secrets(env, cfg), text);
      KindOf(env, cfg, value) ==
        if text == "" then Blank
        else if "enc:v2:" <= text && byActive then Current
        else if plain.Some? && env.parse(plain.value).Some? then Candidate else Unreadable
  {
    var text := env.trim(value);
    assert OpenedBy(env, [cfg.active], text) == if cfg.active != "" && env.open(cfg.active, text).Some? then env.open(cfg.active, text) else None;
  }

  /** A candidate that can be sealed and stored is: its configuration, marshalled again, under the active secret. */
  lemma CandidateIsSealed(env: Env, cfg: Settings, value: string, trial: Trial)
    requires KindOf(env, cfg, value) == Candidate
    ensures var plain := OpenedBy(env, Secrets(env, cfg), env.trim(value));
      plain.Some? && env.parse(plain.value).Some?
      && var sealed := env.seal(cfg.active, env.marshal(env.parse(plain.value).value), trial.r);
      Treated(env, cfg, value, false, trial) == if sealed.Some? && trial.stored then (Updated, sealed.value) else (Failed, value)
    ensures Treated(env, cfg, value, true, trial) == (Updated, value)
  {
  }

  /** Rows that are blank or current are skipped, unreadable ones fail, and none of them changes. */
  lemma OthersAreLeft(env: Env, cfg: Settings, value: string, dryRun: bool, trial: Trial)
    requires KindOf(env, cfg, value) != Candidate
    ensures Treated(env, cfg, value, dryRun, trial) == (if KindOf(env, cfg, value) == Unreadable then Failed else Skipped, value)
  {
  }

  predicate FailedAt(rows: seq<Provider>, results: seq<Result>, i: nat, id: nat)
    requires |rows| == |results|
  {
    i < |rows| && rows[i].id == id && results[i] == Failed
  }

  /** The ids reported are those of the rows that failed. */
  lemma {:induction false} FailedIdsMean(rows: seq<Provider>, results: seq<Result>, id: nat)
    requires |rows| == |results|
    ensures id in FailedIds(rows, results) <==> exists i: nat :: FailedAt(rows, results, i, id)
  {
    if rows != [] {
      var n := |rows| - 1;
      FailedIdsMean(rows[..n], results[..n], id);
      if i: nat :| FailedAt(rows[..n], results[..n], i, id) {
        assert FailedAt(rows, results, i, id);
      }
      if FailedAt(rows, results, n, id) {
        assert FailedIds(rows, results)[|FailedIds(rows, results)| - 1] == id;
      }
      if i: nat :| FailedAt(rows, results, i, id) && i < n {
        assert FailedAt(rows[..n], results[..n], i, id);
      }
    }
  }

  /** A server starts exactly if the environment has a secret, or in development mode a generated one, and keeps it. */
  lemma StartsIff(env: Env, value: string, devMode: bool, generated: string, legacy: seq<string>)
    requires Sound(env)
    ensures Loaded(env, value, devMode, generated, legacy).Some? <==> env.trim(value) != "" || (devMode && env.trim(generated) != "")
    ensures env.trim(value) != "" ==> Loaded(env, value, devMode, generated, legacy) == Some(Settings(env.trim(value), legacy))
  {
    assert env.trim(env.trim(value)) == env.trim(value);
  }
}
