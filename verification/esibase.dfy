/**
 * The configuration assembly of `EsiBase`, the base class of the
 * Eucalyptus service-image tool (esitoolsupport/esibase.py).
 *
 * `EsiBase(args)` picks a region, collects the cloud settings printed by
 * `euca-generate-environment-config --simple` into `self.vars`, fills the
 * settings the tool left unset from command-line options, looks up the
 * `eucalyptus` account's id with `euare-accountlist`, and refuses to start
 * unless the four settings every command needs are known.
 *
 * The external commands are not run here: their standard output (and, for
 * the configuration tool, its exit status) are parameters. Python's `None`
 * is `Option.None`; an exception or `sys.exit(1)` is an `Error`.
 */
module EsiToolSupport {
  import opened Wrappers
  import opened Text
  import opened Entries

  /** `self.vars`: setting name to value, `None` for a setting known to be unset. */
  type Vars = map<string, Option<string>>

  /** The options `EsiBase.add_arguments` registers; `None` when not given. */
  datatype Args = Args(
    region: Option<string>,             // --region
    keyId: Option<string>,              // -I
    secretKey: Option<string>,          // -S
    ec2Url: Option<string>,             // --ec2_url
    tokenUrl: Option<string>,           // --t_url
    cloudFormationUrl: Option<string>,  // --cf_url
    bootstrapUrl: Option<string>,       // --eb_url
    propertiesUrl: Option<string>,      // --ep_url
    certPath: Option<string>,           // --ec_path
    iamUrl: Option<string>)             // --iam_url

  /** `vars(args)`: the options by their argparse destination names. */
  function Options(args: Args): map<string, Option<string>> {
    map[
      "region" := args.region,
      "I" := args.keyId,
      "S" := args.secretKey,
      "ec2_url" := args.ec2Url,
      "t_url" := args.tokenUrl,
      "cf_url" := args.cloudFormationUrl,
      "eb_url" := args.bootstrapUrl,
      "ep_url" := args.propertiesUrl,
      "ec_path" := args.certPath,
      "iam_url" := args.iamUrl]
  }

  /** How the start-up of `EsiBase` can fail. */
  datatype Error =
    | MissingKey(key: string)     // indexing a dictionary raised KeyError
    | NoneArgument(key: string)   // a command line built from `vars` held None, so the command could not be launched
    | EnvironmentIncomplete       // `check_environment` reported the missing settings and exited with status 1

  const PropertiesUrlKey := "EUCA_PROPERTIES_URL"
  /** Used when neither the configuration tool nor `--ep_url` gives a
      properties URL: the command is then assumed to run on the cloud
      controller itself. */
  const LocalPropertiesUrl := "http://127.0.0.1:8773/services/Properties/"
  const UserIdKey := "EC2_USER_ID"
  /** The account whose id becomes `EC2_USER_ID`. */
  const SystemAccount := "eucalyptus"

  /** `VAR_NAMES`: each setting that a command-line option can supply, with
      that option's destination name. */
  const VarNames: map<string, string> := map[
    "TOKEN_URL" := "t_url",
    "AWS_CLOUDFORMATION_URL" := "cf_url",
    "EUCA_BOOTSTRAP_URL" := "eb_url",
    "EUCALYPTUS_CERT" := "ec_path",
    "AWS_IAM_URL" := "iam_url",
    "AWS_ACCESS_KEY_ID" := "I",
    "AWS_SECRET_ACCESS_KEY" := "S",
    "EC2_URL" := "ec2_url"]

  /** The settings `check_environment` demands, in the order it tests them. */
  const RequiredVars: seq<string> := ["EC2_URL", "AWS_ACCESS_KEY_ID", "AWS_SECRET_ACCESS_KEY", "AWS_IAM_URL"]

  /** The settings passed to `euare-accountlist` (as -U, -I and -S), in order. */
  const AccountListVars: seq<string> := ["AWS_IAM_URL", "AWS_ACCESS_KEY_ID", "AWS_SECRET_ACCESS_KEY"]

  lemma TableNamesOptions(args: Args)
    ensures forall k :: k in VarNames ==> VarNames[k] in Options(args)
    ensures PropertiesUrlKey !in VarNames && UserIdKey !in VarNames
    ensures forall i :: 0 <= i < |RequiredVars| ==> RequiredVars[i] in VarNames
    ensures forall i :: 0 <= i < |AccountListVars| ==> AccountListVars[i] in VarNames
  {
  }

  // -----------------------------------------------------------------------
  // The pure parts
  // -----------------------------------------------------------------------

  /** The region of `__init__`: `--region` when given, otherwise the
      `AWS_DEFAULT_REGION` environment variable when set, otherwise
      "localhost". */
  function ChooseRegion(given: Option<string>, envDefault: Option<string>): (region: string)
    ensures given.Some? ==> region == given.value
    ensures given.None? && envDefault.Some? ==> region == envDefault.value
    ensures given.None? && envDefault.None? ==> region == "localhost"
  {
    if given.Some? then given.value
    else if envDefault.None? then "localhost"
    else envDefault.value
  }

  /** `get_env_var`: the stored value, or None for a setting never stored. */
  function GetEnvVar(vars: Vars, name: string): (value: Option<string>)
    ensures name !in vars ==> value == None
    ensures name in vars ==> value == vars[name]
    ensures value.Some? <==> name in vars && vars[name].Some?
  {
    if name in vars then vars[name] else None
  }

  /** The first position of `keys` whose key satisfies `p`. */
  function FirstWhere(keys: seq<string>, p: string -> bool): (r: Option<nat>)
    ensures r.None? <==> forall i :: 0 <= i < |keys| ==> !p(keys[i])
    ensures r.Some? ==> r.value < |keys| && p(keys[r.value])
                        && forall j :: 0 <= j < r.value ==> !p(keys[j])
    decreases |keys|
  {
    if keys == [] then None
    else if p(keys[0]) then Some(0)
    else match FirstWhere(keys[1..], p)
      case None => None
      case Some(i) => Some(i + 1)
  }

  /** The values of `vars[k]` for `keys`, as a command line built from them
      receives them: building the list raises KeyError at the first missing
      key, and a None among the values stops the command from being
      launched. */
  function CommandArguments(vars: Vars, keys: seq<string>): (r: Result<seq<string>, Error>)
    ensures r.Success? <==> forall i :: 0 <= i < |keys| ==> keys[i] in vars && vars[keys[i]].Some?
    ensures r.Success? ==> |r.value| == |keys|
                           && forall i :: 0 <= i < |keys| ==> vars[keys[i]] == Some(r.value[i])
    ensures r.Failure? && r.error.MissingKey? ==> r.error.key in keys && r.error.key !in vars
    ensures r.Failure? && !r.error.MissingKey? ==>
              (forall i :: 0 <= i < |keys| ==> keys[i] in vars)
              && r.error.NoneArgument? && r.error.key in keys && vars[r.error.key] == None
  {
    match FirstWhere(keys, k => k !in vars)
    case Some(i) => Failure(MissingKey(keys[i]))
    case None =>
      match FirstWhere(keys, k => k in vars && vars[k].None?)
      case Some(i) => Failure(NoneArgument(keys[i]))
      case None => Success(seq(|keys|, i requires 0 <= i < |keys| => vars[keys[i]].value))
  }

  /** `check_environment`: passes exactly when all four required settings
      hold a value. The first required setting, in the order the test reads
      them, that does not decides the failure: KeyError if it was never
      stored, exit status 1 if it is None. */
  function CheckEnvironment(vars: Vars): (r: Outcome<Error>)
    ensures r.Pass? <==> forall i :: 0 <= i < |RequiredVars| ==> GetEnvVar(vars, RequiredVars[i]).Some?
    ensures r.Fail? && r.error.MissingKey? ==> r.error.key in RequiredVars && r.error.key !in vars
    ensures r.Fail? && !r.error.MissingKey? ==> r.error == EnvironmentIncomplete
    ensures (forall i :: 0 <= i < |RequiredVars| ==> RequiredVars[i] in vars) ==> r.Pass? || r == Fail(EnvironmentIncomplete)
    ensures r.Fail? ==>
              exists i :: 0 <= i < |RequiredVars| && GetEnvVar(vars, RequiredVars[i]).None?
                          && (forall j :: 0 <= j < i ==> GetEnvVar(vars, RequiredVars[j]).Some?)
                          && r.error == (if RequiredVars[i] in vars then EnvironmentIncomplete
                                         else MissingKey(RequiredVars[i]))
  {
    match FirstWhere(RequiredVars, k => GetEnvVar(vars, k).None?)
    case None => Pass
    case Some(i) =>
      if RequiredVars[i] !in vars then Fail(MissingKey(RequiredVars[i])) else Fail(EnvironmentIncomplete)
  }

  /** The text a stored value came from: the value itself, or "" for None. */
  function ValueText(value: Option<string>): string {
    if value.Some? then value.value else ""
  }

  /** One line of the configuration tool's output, `var.split("=")`: a line
      with exactly one `=` gives the entry (left side, right side), an empty
      right side standing for None; any other line gives nothing. */
  function ConfigEntry(line: string): (e: Option<(string, Option<string>)>)
    ensures e.Some? <==> Count(line, '=') == 1
    ensures e.Some? ==> e.value.1 != Some("") && '=' !in e.value.0 && '=' !in ValueText(e.value.1)
                        && line == e.value.0 + "=" + ValueText(e.value.1)
  {
    var v := Split(line, '=');
    if |v| == 2 then
      assert Join(v, '=') == v[0] + "=" + Join(v[1..], '=');
      Some((v[0], if v[1] != "" then Some(v[1]) else None))
    else None
  }

  function ConfigEntries(lines: seq<string>): (es: seq<Option<(string, Option<string>)>>)
    ensures |es| == |lines| && forall i :: 0 <= i < |lines| ==> es[i] == ConfigEntry(lines[i])
  {
    seq(|lines|, i requires 0 <= i < |lines| => ConfigEntry(lines[i]))
  }

  /** One line of `euare-accountlist` output, `line.strip().split(None, 1)`:
      an entry (first field, rest of the line) when there are two fields and
      the first starts with "(eucalyptus)" or "eucalyptus". */
  function AccountEntry(line: string): (e: Option<(string, string)>)
    ensures e.Some? ==> e.value.0 != [] && NoSpace(e.value.0)
                        && (StartsWith(e.value.0, "(eucalyptus)") || StartsWith(e.value.0, "eucalyptus"))
                        && e.value.1 != [] && !IsSpace(e.value.1[0])
  {
    var fields := SplitOnce(Strip(line));
    if |fields| > 1 && (StartsWith(fields[0], "(eucalyptus)") || StartsWith(fields[0], "eucalyptus")) then
      Some((fields[0], fields[1]))
    else None
  }

  function AccountEntries(lines: seq<string>): (es: seq<Option<(string, string)>>)
    ensures |es| == |lines| && forall i :: 0 <= i < |lines| ==> es[i] == AccountEntry(lines[i])
  {
    seq(|lines|, i requires 0 <= i < |lines| => AccountEntry(lines[i]))
  }

  /** What `list_system_accounts` returns for the account tool's output
      `lines`, or how it fails when `vars` cannot supply its arguments. */
  function SystemAccounts(vars: Vars, lines: seq<string>): Result<map<string, string>, Error> {
    match CommandArguments(vars, AccountListVars)
    case Failure(e) => Failure(e)
    case Success(_) => Success(Absorb(map[], AccountEntries(lines)))
  }

  /** The value `_get_property` reads from `euctl` output: the third
      whitespace-separated token when there are exactly three, else None. */
  function PropertyValue(output: string): (value: Option<string>)
    ensures value.Some? <==> |Tokens(output)| == 3
    ensures value.Some? ==> value.value == Tokens(output)[2]
    ensures value.Some? ==> value.value != [] && NoSpace(value.value)
  {
    var res := Tokens(output);
    if |res| == 3 then Some(res[2]) else None
  }

  // -----------------------------------------------------------------------
  // `_load_vars`, step by step
  // -----------------------------------------------------------------------

  /** The configuration tool's entries added to `vars`, one line at a time;
      its output is ignored when it exited with a non-zero status. */
  function ReadConfig(vars: Vars, status: int, output: string): (r: Vars)
    ensures status != 0 ==> r == vars
    ensures vars.Keys <= r.Keys
  {
    if status == 0 then
      var entries := ConfigEntries(Split(output, '\n'));
      assert forall k :: k in vars ==> k in Absorb(vars, entries) by {
        forall k | k in vars ensures k in Absorb(vars, entries) {
          AbsorbKeys(vars, entries, k);
        }
      }
      Absorb(vars, entries)
    else vars
  }

  /** `EUCA_PROPERTIES_URL` set from `--ep_url`, or to the local default,
      unless it already holds a value. */
  function DefaultPropertiesUrl(vars: Vars, epUrl: Option<string>): (r: Vars)
    ensures GetEnvVar(r, PropertiesUrlKey).Some?
    ensures GetEnvVar(vars, PropertiesUrlKey).Some? ==> r == vars
    ensures GetEnvVar(vars, PropertiesUrlKey).None? ==>
              r == vars[PropertiesUrlKey := Some(if epUrl.Some? then epUrl.value else LocalPropertiesUrl)]
  {
    if GetEnvVar(vars, PropertiesUrlKey).None? then
      if epUrl.Some? then vars[PropertiesUrlKey := epUrl]
      else vars[PropertiesUrlKey := Some(LocalPropertiesUrl)]
    else vars
  }

  /** `vars` after the `VAR_NAMES` loop has visited the settings `done`: each
      visited setting that held no value now holds its option's value. */
  function FillFromArgs(vars: Vars, args: Args, done: set<string>): (r: Vars)
    requires done <= VarNames.Keys
    ensures r.Keys == vars.Keys + done
  {
    TableNamesOptions(args);
    map k | k in vars.Keys + done ::
      if k in done && GetEnvVar(vars, k).None? then Options(args)[VarNames[k]] else vars[k]
  }

  /** Visiting one more setting of `VAR_NAMES`. */
  lemma FillFromArgsStep(vars: Vars, args: Args, done: set<string>, k: string)
    requires done <= VarNames.Keys && k in VarNames && k !in done
    ensures GetEnvVar(FillFromArgs(vars, args, done), k) == GetEnvVar(vars, k)
    ensures FillFromArgs(vars, args, done + {k}) ==
              if GetEnvVar(vars, k).None? then FillFromArgs(vars, args, done)[k := Options(args)[VarNames[k]]]
              else FillFromArgs(vars, args, done)
  {
    TableNamesOptions(args);
    var before := FillFromArgs(vars, args, done);
    var after := FillFromArgs(vars, args, done + {k});
    if GetEnvVar(vars, k).None? {
      assert after == before[k := Options(args)[VarNames[k]]];
    } else {
      assert after == before;
    }
  }

  /** `vars` after the first three steps of `_load_vars`. */
  function Filled(vars: Vars, args: Args, status: int, output: string): Vars {
    FillFromArgs(DefaultPropertiesUrl(ReadConfig(vars, status, output), args.propertiesUrl), args, VarNames.Keys)
  }

  /** The last step of `_load_vars`: when `EC2_USER_ID` holds no value, it
      becomes the id listed for the account named exactly "eucalyptus";
      failing that, the lookup raises KeyError. */
  function ResolveUserId(vars: Vars, accountLines: seq<string>): (r: Result<Vars, Error>)
    ensures GetEnvVar(vars, UserIdKey).Some? ==> r == Success(vars)
    ensures r.Success? ==> GetEnvVar(r.value, UserIdKey).Some?
                           && r.value.Keys == vars.Keys + {UserIdKey}
                           && forall k :: k in vars && k != UserIdKey ==> r.value[k] == vars[k]
  {
    if GetEnvVar(vars, UserIdKey).Some? then Success(vars)
    else
      match SystemAccounts(vars, accountLines)
      case Failure(e) => Failure(e)
      case Success(accounts) =>
        if SystemAccount in accounts then Success(vars[UserIdKey := Some(accounts[SystemAccount])])
        else Failure(MissingKey(SystemAccount))
  }

  /** The settings an `EsiBase` starts with, or the error that stops it:
      `_load_vars` from an empty dictionary, then `check_environment`. */
  function Configured(args: Args, status: int, output: string, accountLines: seq<string>): Result<Vars, Error> {
    match ResolveUserId(Filled(map[], args, status, output), accountLines)
    case Failure(e) => Failure(e)
    case Success(vars) =>
      match CheckEnvironment(vars)
      case Pass => Success(vars)
      case Fail(e) => Failure(e)
  }

  // -----------------------------------------------------------------------
  // The class
  // -----------------------------------------------------------------------

  class EsiBase {
    var vars: Vars
    const args: Args
    const region: string

    /** The first lines of `__init__`: an empty `vars` and the chosen region.
        `envRegion` is the `AWS_DEFAULT_REGION` environment variable. */
    constructor (args: Args, envRegion: Option<string>)
      ensures this.args == args && region == ChooseRegion(args.region, envRegion)
      ensures vars == map[]
    {
      this.args := args;
      region := ChooseRegion(args.region, envRegion);
      vars := map[];
    }

    /** `EsiBase(args)`: construct, `_load_vars`, then `check_environment`.
        `configStatus` and `configOutput` are the exit status and output of
        `euca-generate-environment-config --simple --region <region>`;
        `accountLines` is the output of `euare-accountlist`. */
    static method Create(args: Args, envRegion: Option<string>, configStatus: int, configOutput: string,
                         accountLines: seq<string>) returns (r: Result<EsiBase, Error>)
      ensures var c := Configured(args, configStatus, configOutput, accountLines);
              && (r.Success? <==> c.Success?)
              && (r.Failure? ==> r.error == c.error)
              && (r.Success? ==> fresh(r.value) && r.value.vars == c.value && r.value.args == args
                                 && r.value.region == ChooseRegion(args.region, envRegion))
    {
      var base := new EsiBase(args, envRegion);
      var loaded := base.LoadVars(configStatus, configOutput, accountLines);
      if loaded.Fail? {
        return Failure(loaded.error);
      }
      var checked := CheckEnvironment(base.vars);
      if checked.Fail? {
        return Failure(checked.error);
      }
      r := Success(base);
    }

    /** `_load_vars`: read the configuration tool's `KEY=VALUE` lines, default
        the properties URL, fill the `VAR_NAMES` settings from options, then
        resolve `EC2_USER_ID`. On failure `vars` keeps what the first three
        steps stored. */
    method LoadVars(configStatus: int, configOutput: string, accountLines: seq<string>) returns (outcome: Outcome<Error>)
      modifies this
      ensures var filled := Filled(old(vars), args, configStatus, configOutput);
              var resolved := ResolveUserId(filled, accountLines);
              && (resolved.Success? ==> outcome == Pass && vars == resolved.value)
              && (resolved.Failure? ==> outcome == Fail(resolved.error) && vars == filled)
    {
      ReadConfigOutput(configStatus, configOutput);
      SetPropertiesUrl();
      FillFromOptions();
      outcome := SetUserId(accountLines);
    }

    /** The first step of `_load_vars`: when the configuration tool exited
        with status 0, each of its output lines of the form `KEY=VALUE` stores
        VALUE (None when empty) under KEY. */
    method ReadConfigOutput(configStatus: int, configOutput: string)
      modifies this
      ensures vars == ReadConfig(old(vars), configStatus, configOutput)
    {
      if configStatus == 0 {
        var lines := Split(configOutput, '\n');
        ghost var entries := ConfigEntries(lines);
        ghost var start := vars;
        var i := 0;
        while i < |lines|
          invariant 0 <= i <= |lines|
          invariant vars == Absorb(start, entries[..i])
        {
          AbsorbStep(start, entries, i);
          var v := Split(lines[i], '=');
          if |v| == 2 {
            vars := vars[v[0] := if v[1] != "" then Some(v[1]) else None];
          }
          i := i + 1;
        }
        assert entries[..|lines|] == entries;
      }
    }

    /** The second step of `_load_vars`: an unset `EUCA_PROPERTIES_URL` takes
        `--ep_url`, or the local default when that option is not given. */
    method SetPropertiesUrl()
      modifies this
      ensures vars == DefaultPropertiesUrl(old(vars), args.propertiesUrl)
    {
      if GetEnvVar(vars, PropertiesUrlKey).None? {
        if args.propertiesUrl.Some? {
          vars := vars[PropertiesUrlKey := args.propertiesUrl];
        } else {
          vars := vars[PropertiesUrlKey := Some(LocalPropertiesUrl)];
        }
      }
    }

    /** The third step of `_load_vars`: the loop over `VAR_NAMES`, in no
        particular order; each setting that holds no value takes its option's
        value. */
    method FillFromOptions()
      modifies this
      ensures vars == FillFromArgs(old(vars), args, VarNames.Keys)
    {
      var opts := Options(args);
      TableNamesOptions(args);
      ghost var before := vars;
      var pending := VarNames.Keys;
      while pending != {}
        invariant pending <= VarNames.Keys
        invariant vars == FillFromArgs(before, args, VarNames.Keys - pending)
        decreases pending
      {
        var k :| k in pending;
        FillFromArgsStep(before, args, VarNames.Keys - pending, k);
        assert VarNames.Keys - pending + {k} == VarNames.Keys - (pending - {k});
        if GetEnvVar(vars, k).None? {
          vars := vars[k := opts[VarNames[k]]];
        }
        pending := pending - {k};
      }
    }

    /** The last step of `_load_vars`: an unset `EC2_USER_ID` takes the id
        listed for the account named exactly "eucalyptus". */
    method SetUserId(accountLines: seq<string>) returns (outcome: Outcome<Error>)
      modifies this
      ensures var resolved := ResolveUserId(old(vars), accountLines);
              && (resolved.Success? ==> outcome == Pass && vars == resolved.value)
              && (resolved.Failure? ==> outcome == Fail(resolved.error) && vars == old(vars))
    {
      if GetEnvVar(vars, UserIdKey).None? {
        var accounts := ListSystemAccounts(accountLines);
        if accounts.Failure? {
          return Fail(accounts.error);
        }
        if SystemAccount !in accounts.value {
          return Fail(MissingKey(SystemAccount));
        }
        vars := vars[UserIdKey := Some(accounts.value[SystemAccount])];
      }
      outcome := Pass;
    }

    /** `list_system_accounts`, given the lines `euare-accountlist` prints:
        every line that passes the account filter stores its second field
        under its first, a later line replacing an earlier one. */
    method ListSystemAccounts(lines: seq<string>) returns (r: Result<map<string, string>, Error>)
      ensures r == SystemAccounts(vars, lines)
    {
      var command := CommandArguments(vars, AccountListVars);
      if command.Failure? {
        return Failure(command.error);
      }
      var accounts := map[];
      var i := 0;
      while i < |lines|
        invariant 0 <= i <= |lines|
        invariant accounts == Absorb(map[], AccountEntries(lines)[..i])
      {
        AbsorbStep(map[], AccountEntries(lines), i);
        var split := SplitOnce(Strip(lines[i]));
        if |split| > 1 && (StartsWith(split[0], "(eucalyptus)") || StartsWith(split[0], "eucalyptus")) {
          accounts := accounts[split[0] := split[1]];
        }
        i := i + 1;
      }
      assert AccountEntries(lines)[..|lines|] == AccountEntries(lines);
      r := Success(accounts);
    }

    /** `_get_property`, given what `euctl` printed: the command line needs
        `EUCA_PROPERTIES_URL`, and the value is read from the output. */
    method GetProperty(output: string) returns (r: Result<Option<string>, Error>)
      ensures r.Success? <==> GetEnvVar(vars, PropertiesUrlKey).Some?
      ensures r.Success? ==> r.value == PropertyValue(output)
      ensures r.Failure? ==> r.error == (if PropertiesUrlKey in vars then NoneArgument(PropertiesUrlKey)
                                         else MissingKey(PropertiesUrlKey))
    {
      var command := CommandArguments(vars, [PropertiesUrlKey]);
      if command.Failure? {
        return Failure(command.error);
      }
      var res := Tokens(output);
      r := Success(if |res| == 3 then Some(res[2]) else None);
    }
  }
}
