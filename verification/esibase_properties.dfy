/**
 * What the configuration assembly of `EsiBase` guarantees: how a
 * configuration line is read, which source wins for each setting, which
 * settings are always present after loading, when start-up fails, and how
 * the account list and a property value are read.
 */
module EsiBaseProperties {
  import opened Wrappers
  import opened Text
  import opened Entries
  import opened EsiToolSupport

  // -----------------------------------------------------------------------
  // Configuration lines
  // -----------------------------------------------------------------------

  /** A line `KEY=VALUE` is read back as the entry for KEY, an empty VALUE
      as None. */
  lemma ConfigEntryOfAssignment(key: string, value: string)
    requires '=' !in key && '=' !in value
    ensures ConfigEntry(key + "=" + value) == Some((key, if value == "" then None else Some(value)))
  {
    assert key + "=" + value == key + ['='] + value;
    SplitAtOnlySeparator(key, value, '=');
  }

  /** After reading the configuration tool's output, a setting is stored
      exactly when it was stored before or some output line is an entry for
      it. */
  lemma ReadConfigKeys(vars: Vars, output: string, lines: seq<string>, k: string)
    requires lines == Split(output, '\n')
    ensures k in ReadConfig(vars, 0, output) <==>
              k in vars || exists i :: 0 <= i < |lines| && HasKey(ConfigEntry(lines[i]), k)
  {
    var entries := ConfigEntries(lines);
    assert ReadConfig(vars, 0, output) == Absorb(vars, entries);
    AbsorbKeys(vars, entries, k);
    ConfigLineNames(lines, k);
  }

  lemma ConfigLineNames(lines: seq<string>, k: string)
    ensures (exists i :: 0 <= i < |lines| && HasKey(ConfigEntries(lines)[i], k)) <==>
            (exists i :: 0 <= i < |lines| && HasKey(ConfigEntry(lines[i]), k))
  {
    var entries := ConfigEntries(lines);
    if exists i :: 0 <= i < |lines| && HasKey(entries[i], k) {
      var i :| 0 <= i < |lines| && HasKey(entries[i], k);
      assert HasKey(ConfigEntry(lines[i]), k);
    }
    if exists i :: 0 <= i < |lines| && HasKey(ConfigEntry(lines[i]), k) {
      var i :| 0 <= i < |lines| && HasKey(ConfigEntry(lines[i]), k);
      assert HasKey(entries[i], k);
    }
  }

  /** A later configuration line for a setting overrides an earlier one:
      the stored value comes from the last line that is an entry for it. */
  lemma ReadConfigLastWins(vars: Vars, output: string, i: nat, k: string, v: Option<string>)
    requires var lines := Split(output, '\n');
             i < |lines| && ConfigEntry(lines[i]) == Some((k, v))
             && forall j :: i < j < |lines| ==> !HasKey(ConfigEntry(lines[j]), k)
    ensures k in ReadConfig(vars, 0, output) && ReadConfig(vars, 0, output)[k] == v
  {
    var lines := Split(output, '\n');
    var entries := ConfigEntries(lines);
    assert forall j :: i < j < |entries| ==> !HasKey(entries[j], k);
    AbsorbLastWins(vars, entries, i, k, v);
  }

  // -----------------------------------------------------------------------
  // The three sources of a setting: tool, option, default
  // -----------------------------------------------------------------------

  /** `EUCA_PROPERTIES_URL` always holds a value after loading: the
      configuration tool's when it gave a non-empty one, otherwise
      `--ep_url` when given, otherwise the local default. */
  lemma PropertiesUrlAlwaysSet(vars: Vars, args: Args, status: int, output: string)
    ensures var fromConfig := GetEnvVar(ReadConfig(vars, status, output), PropertiesUrlKey);
            GetEnvVar(Filled(vars, args, status, output), PropertiesUrlKey) ==
              if fromConfig.Some? then fromConfig
              else Some(if args.propertiesUrl.Some? then args.propertiesUrl.value else LocalPropertiesUrl)
  {
    TableNamesOptions(args);
    var read := ReadConfig(vars, status, output);
    var defaulted := DefaultPropertiesUrl(read, args.propertiesUrl);
    assert PropertiesUrlKey in defaulted;
    assert Filled(vars, args, status, output)[PropertiesUrlKey] == defaulted[PropertiesUrlKey];
  }

  /** Each `VAR_NAMES` setting is present after loading. It keeps the value
      the configuration tool gave it, whatever the options say; when the tool
      gave none, it takes its option's value, which may itself be None. */
  lemma TableSettingFilled(vars: Vars, args: Args, status: int, output: string, k: string)
    requires k in VarNames
    ensures var fromConfig := GetEnvVar(ReadConfig(vars, status, output), k);
            var filled := Filled(vars, args, status, output);
            && k in filled
            && filled[k] == if fromConfig.Some? then fromConfig else Options(args)[VarNames[k]]
  {
    TableNamesOptions(args);
    var read := ReadConfig(vars, status, output);
    var defaulted := DefaultPropertiesUrl(read, args.propertiesUrl);
    assert GetEnvVar(defaulted, k) == GetEnvVar(read, k);
  }

  /** The option each `VAR_NAMES` setting falls back to. */
  lemma TableOptions(args: Args)
    ensures Options(args)[VarNames["TOKEN_URL"]] == args.tokenUrl
    ensures Options(args)[VarNames["AWS_CLOUDFORMATION_URL"]] == args.cloudFormationUrl
    ensures Options(args)[VarNames["EUCA_BOOTSTRAP_URL"]] == args.bootstrapUrl
    ensures Options(args)[VarNames["EUCALYPTUS_CERT"]] == args.certPath
    ensures Options(args)[VarNames["AWS_IAM_URL"]] == args.iamUrl
    ensures Options(args)[VarNames["AWS_ACCESS_KEY_ID"]] == args.keyId
    ensures Options(args)[VarNames["AWS_SECRET_ACCESS_KEY"]] == args.secretKey
    ensures Options(args)[VarNames["EC2_URL"]] == args.ec2Url
  {
  }

  /** Settings outside `VAR_NAMES`, other than the properties URL, are left
      as the configuration tool stored them. */
  lemma OtherSettingsKept(vars: Vars, args: Args, status: int, output: string, k: string)
    requires k !in VarNames && k != PropertiesUrlKey
    ensures var read := ReadConfig(vars, status, output);
            var filled := Filled(vars, args, status, output);
            (k in filled <==> k in read) && (k in read ==> filled[k] == read[k])
  {
  }

  /** After loading, every `VAR_NAMES` setting and the properties URL are
      stored. */
  lemma FilledHasAllSettings(vars: Vars, args: Args, status: int, output: string)
    ensures VarNames.Keys + {PropertiesUrlKey} <= Filled(vars, args, status, output).Keys
  {
    TableNamesOptions(args);
  }

  /** When the configuration tool fails, its output counts for nothing:
      starting from an empty dictionary, every `VAR_NAMES` setting holds its
      option's value and the properties URL is `--ep_url` or the default. */
  lemma FailedConfigToolIgnored(args: Args, status: int, output: string)
    requires status != 0
    ensures var filled := Filled(map[], args, status, output);
            && (forall k :: k in VarNames ==> k in filled && filled[k] == Options(args)[VarNames[k]])
            && GetEnvVar(filled, PropertiesUrlKey) ==
                 Some(if args.propertiesUrl.Some? then args.propertiesUrl.value else LocalPropertiesUrl)
  {
    forall k | k in VarNames
      ensures var filled := Filled(map[], args, status, output);
              k in filled && filled[k] == Options(args)[VarNames[k]]
    {
      TableSettingFilled(map[], args, status, output, k);
    }
    PropertiesUrlAlwaysSet(map[], args, status, output);
  }

  // -----------------------------------------------------------------------
  // Start-up
  // -----------------------------------------------------------------------

  /** Once the first three loading steps have run, `check_environment` can
      no longer raise KeyError: all four of its settings are stored, so it
      either passes or reports them missing. */
  lemma CheckEnvironmentAfterFill(vars: Vars, args: Args, status: int, output: string, accountLines: seq<string>)
    ensures var filled := Filled(vars, args, status, output);
            var r := CheckEnvironment(filled);
            r.Pass? || r == Fail(EnvironmentIncomplete)
    ensures var resolved := ResolveUserId(Filled(vars, args, status, output), accountLines);
            resolved.Success? ==> var r := CheckEnvironment(resolved.value);
                                  r.Pass? || r == Fail(EnvironmentIncomplete)
  {
    TableNamesOptions(args);
  }

  /** An `EsiBase` that starts holds a value for the four required
      settings, the properties URL and `EC2_USER_ID`, and stores every
      `VAR_NAMES` setting. */
  lemma ConfiguredComplete(args: Args, status: int, output: string, accountLines: seq<string>)
    ensures var c := Configured(args, status, output, accountLines);
            c.Success? ==>
            var vars := c.value;
            && (forall i :: 0 <= i < |RequiredVars| ==> GetEnvVar(vars, RequiredVars[i]).Some?)
            && GetEnvVar(vars, PropertiesUrlKey).Some?
            && GetEnvVar(vars, UserIdKey).Some?
            && VarNames.Keys <= vars.Keys
  {
    var filled := Filled(map[], args, status, output);
    PropertiesUrlAlwaysSet(map[], args, status, output);
    FilledHasAllSettings(map[], args, status, output);
    TableNamesOptions(args);
    assert UserIdKey != PropertiesUrlKey;
  }

  /** Why an `EsiBase` can fail to start: a required setting is None, one of
      the account tool's arguments is None, or no account is named exactly
      "eucalyptus". No other KeyError can occur. */
  lemma ConfiguredFailures(args: Args, status: int, output: string, accountLines: seq<string>)
    ensures var c := Configured(args, status, output, accountLines);
            c.Failure? ==>
            var e := c.error;
            || e == EnvironmentIncomplete
            || (e.NoneArgument? && e.key in AccountListVars)
            || e == MissingKey(SystemAccount)
  {
    TableNamesOptions(args);
    var filled := Filled(map[], args, status, output);
    FilledHasAllSettings(map[], args, status, output);
    CheckEnvironmentAfterFill(map[], args, status, output, accountLines);
  }

  /** `_load_vars` looks up the account list before `check_environment`
      runs, so when neither the configuration tool nor `--iam_url` gives an
      IAM URL (and `EC2_USER_ID` is unknown), start-up stops at the account
      tool's None argument, not at the environment check. */
  lemma AccountLookupPrecedesCheck(args: Args, status: int, output: string, accountLines: seq<string>)
    requires status != 0 && args.iamUrl.None?
    ensures Configured(args, status, output, accountLines) == Failure(NoneArgument("AWS_IAM_URL"))
  {
    TableNamesOptions(args);
    var filled := Filled(map[], args, status, output);
    TableSettingFilled(map[], args, status, output, "AWS_IAM_URL");
    TableSettingFilled(map[], args, status, output, "AWS_ACCESS_KEY_ID");
    TableSettingFilled(map[], args, status, output, "AWS_SECRET_ACCESS_KEY");
    OtherSettingsKept(map[], args, status, output, UserIdKey);
    assert filled["AWS_IAM_URL"] == None;
    assert FirstWhere(AccountListVars, k => k !in filled) == None;
    assert FirstWhere(AccountListVars, k => k in filled && filled[k].None?) == Some(0);
  }

  // -----------------------------------------------------------------------
  // The account list
  // -----------------------------------------------------------------------

  /** An account line that passes the filter is, once stripped, its first
      field, a run of whitespace and its second field. */
  lemma AccountEntryShape(line: string) returns (gap: string)
    requires AccountEntry(line).Some?
    ensures gap != [] && AllSpace(gap)
    ensures Strip(line) == AccountEntry(line).value.0 + gap + AccountEntry(line).value.1
  {
    var s := Strip(line);
    gap := SplitOnceShape(s);
    assert TrimStart(s) == s;
  }

  /** Conversely, a line that strips to a name starting with "(eucalyptus)"
      or "eucalyptus", whitespace, and a value passes the filter as the entry
      (name, value). */
  lemma AccountEntryOfFields(line: string, name: string, gap: string, value: string)
    requires Strip(line) == name + gap + value
    requires name != [] && NoSpace(name)
    requires StartsWith(name, "(eucalyptus)") || StartsWith(name, "eucalyptus")
    requires gap != [] && AllSpace(gap)
    requires value != [] && !IsSpace(value[0])
    ensures AccountEntry(line) == Some((name, value))
  {
    SplitOnceOfFields(name, gap, value);
  }

  /** Every account name `list_system_accounts` returns starts with
      "(eucalyptus)" or "eucalyptus". */
  lemma SystemAccountNames(lines: seq<string>)
    ensures forall k :: k in Absorb(map[], AccountEntries(lines)) ==>
              StartsWith(k, "(eucalyptus)") || StartsWith(k, "eucalyptus")
  {
    AbsorbNewKeys(map[], AccountEntries(lines), k => StartsWith(k, "(eucalyptus)") || StartsWith(k, "eucalyptus"));
  }

  /** `EC2_USER_ID`, when it must be looked up, resolves exactly when some
      account line's first field is exactly "eucalyptus"; a name that only
      starts with it, such as "(eucalyptus)x" or "eucalyptus-x", does not
      count. */
  lemma UserIdNeedsExactAccount(vars: Vars, lines: seq<string>)
    requires GetEnvVar(vars, UserIdKey).None?
    requires CommandArguments(vars, AccountListVars).Success?
    ensures ResolveUserId(vars, lines).Success? <==>
              exists i :: 0 <= i < |lines| && HasKey(AccountEntry(lines[i]), SystemAccount)
    ensures !ResolveUserId(vars, lines).Success? ==> ResolveUserId(vars, lines) == Failure(MissingKey(SystemAccount))
  {
    var entries := AccountEntries(lines);
    AbsorbKeys(map[], entries, SystemAccount);
    assert (exists i :: 0 <= i < |entries| && HasKey(entries[i], SystemAccount)) <==>
           (exists i :: 0 <= i < |lines| && HasKey(AccountEntry(lines[i]), SystemAccount)) by {
      if exists i :: 0 <= i < |entries| && HasKey(entries[i], SystemAccount) {
        var i :| 0 <= i < |entries| && HasKey(entries[i], SystemAccount);
        assert HasKey(AccountEntry(lines[i]), SystemAccount);
      }
      if exists i :: 0 <= i < |lines| && HasKey(AccountEntry(lines[i]), SystemAccount) {
        var i :| 0 <= i < |lines| && HasKey(AccountEntry(lines[i]), SystemAccount);
        assert HasKey(entries[i], SystemAccount);
      }
    }
  }

  /** The id stored for the system account comes from the last account line
      named exactly "eucalyptus". */
  lemma UserIdFromLastAccountLine(vars: Vars, lines: seq<string>, i: nat, id: string)
    requires GetEnvVar(vars, UserIdKey).None?
    requires CommandArguments(vars, AccountListVars).Success?
    requires i < |lines| && AccountEntry(lines[i]) == Some((SystemAccount, id))
    requires forall j :: i < j < |lines| ==> !HasKey(AccountEntry(lines[j]), SystemAccount)
    ensures ResolveUserId(vars, lines) == Success(vars[UserIdKey := Some(id)])
  {
    var entries := AccountEntries(lines);
    assert forall j :: i < j < |entries| ==> !HasKey(entries[j], SystemAccount);
    AbsorbLastWins(map[], entries, i, SystemAccount, id);
  }

  // -----------------------------------------------------------------------
  // Property values
  // -----------------------------------------------------------------------

  /** The output line `name = value` of `euctl` yields `value`. */
  lemma PropertyValueOfAssignment(name: string, value: string)
    requires name != [] && NoSpace(name)
    requires value != [] && NoSpace(value)
    ensures PropertyValue(name + " = " + value + "\n") == Some(value)
  {
    var out := name + " = " + value + "\n";
    assert out == name + [' '] + ("=" + [' '] + (value + ['\n'] + []));
    TokensAcrossSpace(name, ' ', "=" + [' '] + (value + ['\n'] + []));
    TokensAcrossSpace("=", ' ', value + ['\n'] + []);
    TokensAcrossSpace(value, '\n', []);
    TokensOfWord(name);
    TokensOfWord("=");
    TokensOfWord(value);
  }
}
