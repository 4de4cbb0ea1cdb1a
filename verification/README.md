# EsiBase configuration assembly, in Dafny

This project models how `EsiBase`, the base class of the Eucalyptus
service-image tool, assembles its cloud settings (`esitoolsupport/esibase.py`).
Constructing an `EsiBase` does the following:

- picks a region;
- runs `euca-generate-environment-config --simple` and, when it exits with
  status 0, stores each `KEY=VALUE` line of its output in `self.vars`, with an
  empty value stored as `None`;
- defaults `EUCA_PROPERTIES_URL`;
- fills each of the eight `VAR_NAMES` settings that the tool left unset from
  its command-line option;
- when the configuration tool gave no `EC2_USER_ID`, takes it from the line
  of `euare-accountlist` whose first field is exactly `eucalyptus` (the last
  such line wins);
- exits unless `EC2_URL`, `AWS_ACCESS_KEY_ID`, `AWS_SECRET_ACCESS_KEY` and
  `AWS_IAM_URL` all hold a value.

The model also covers how `_get_property` reads a value from `euctl` output.

Files:

- `wrappers.dfy`: `Option` (Python's `None`), `Result` and `Outcome`.
- `text.dfy`: the Python 2 string operations the code uses: `split(c)`,
  `split()`, `strip()`, `split(None, 1)` and `startswith`. Whitespace is
  Python 2's set for byte strings.
- `entries.dfy`: how a loop of `d[k] = v` over lines fills a dictionary, where
  a later entry for a key replaces an earlier one.
- `esibase.dfy`: the settings model (module `EsiToolSupport`). It has pure
  functions for each step and the class `EsiBase`. The class holds `vars`,
  `args` and `region`, and its methods run the loops of `_load_vars` and
  `list_system_accounts`. Each method is proved equal to the matching function.
- `esibase_properties.dfy`: lemmas about the settings model.

The model does not run the external commands. Instead, each command's
standard output is a parameter, and so is the exit status of the
configuration tool. The `AWS_DEFAULT_REGION` environment variable is also a
parameter. Failures become an `Error`:

- a Python `KeyError` becomes `MissingKey`;
- a `None` in a command line becomes `NoneArgument`, because the process
  launcher refuses it;
- `check_environment`'s `sys.exit(1)` becomes `EnvironmentIncomplete`.

Python iterates over `VAR_NAMES`, a dictionary, in no fixed order. The model
picks keys with `:|`, so `FillFromOptions` is proved for every order.

## Model

| member | source | states |
|---|---|---|
| EsiToolSupport.ChooseRegion | esitoolsupport/esibase.py:30-31 | The region is `--region` if given, else `AWS_DEFAULT_REGION` if set, else "localhost". |
| EsiToolSupport.GetEnvVar | esitoolsupport/esibase.py:147-148 | A setting never stored reads as None. A stored setting reads as its stored value. The result holds a value exactly when the key is stored with a non-None value. |
| EsiToolSupport.CheckEnvironment | esitoolsupport/esibase.py:116-124 | Passes exactly when all four required settings hold a value. Otherwise the first required setting, in the order the test reads them, that lacks a value decides the failure: KeyError if that key was never stored, exit status 1 if it holds None. Once all four keys are stored it can only pass or exit 1. |
| EsiToolSupport.CommandArguments | esitoolsupport/esibase.py:64-66 | A command line built from `vars` gets one value per key when every key holds a value. Otherwise it fails: KeyError for a key not stored, or a None argument when all keys are stored. |
| EsiToolSupport.ConfigEntry | esitoolsupport/esibase.py:80-83 | A configuration line gives an entry exactly when it holds exactly one `=`. The entry is the text left of the `=` and the text right of it, with an empty right side as None. Key and value contain no `=` and rebuild the line. |
| EsiBaseProperties.ConfigEntryOfAssignment | esitoolsupport/esibase.py:81-83 | The line `KEY=VALUE` reads back as the entry (KEY, VALUE), with an empty VALUE as None. |
| EsiToolSupport.ReadConfig | esitoolsupport/esibase.py:78-83 | A non-zero exit status of the configuration tool leaves `vars` unchanged. Reading its output never removes a setting. |
| EsiBaseProperties.ReadConfigKeys | esitoolsupport/esibase.py:79-83 | After reading the tool's output, a setting is stored exactly when it was stored before or some output line is an entry for it. |
| EsiBaseProperties.ReadConfigLastWins | esitoolsupport/esibase.py:80-83 | A setting's stored value comes from the last output line that is an entry for it, so later lines overwrite earlier ones. |
| EsiToolSupport.DefaultPropertiesUrl | esitoolsupport/esibase.py:84-89 | `EUCA_PROPERTIES_URL` holds a value afterwards. A value already there is kept. Otherwise it becomes `--ep_url`, or the local default when that option is not given. |
| EsiBaseProperties.PropertiesUrlAlwaysSet | esitoolsupport/esibase.py:84-101 | After loading, `EUCA_PROPERTIES_URL` is the tool's non-empty value if there is one, else `--ep_url` if given, else `http://127.0.0.1:8773/services/Properties/`. |
| EsiToolSupport.FillFromArgs | esitoolsupport/esibase.py:90-101 | Visiting `VAR_NAMES` settings adds exactly the visited settings to the stored ones. |
| EsiBaseProperties.TableSettingFilled | esitoolsupport/esibase.py:90-101 | Every `VAR_NAMES` setting is stored after loading. A non-None value from the tool is kept whatever the option says. Otherwise the setting takes its option's value, which may be None. |
| EsiBaseProperties.TableOptions | esitoolsupport/esibase.py:90-98 | Each `VAR_NAMES` setting falls back to its own option: `--t_url`, `--cf_url`, `--eb_url`, `--ec_path`, `--iam_url`, `-I`, `-S` and `--ec2_url`. |
| EsiBaseProperties.OtherSettingsKept | esitoolsupport/esibase.py:84-101 | Settings outside `VAR_NAMES`, other than the properties URL, stay as the configuration tool stored them. |
| EsiBaseProperties.FilledHasAllSettings | esitoolsupport/esibase.py:84-101 | After the first three loading steps, every `VAR_NAMES` setting and `EUCA_PROPERTIES_URL` is stored. |
| EsiBaseProperties.FailedConfigToolIgnored | esitoolsupport/esibase.py:78-101 | If the configuration tool exits non-zero, every `VAR_NAMES` setting equals its option and the properties URL is `--ep_url` or the default. |
| EsiToolSupport.ResolveUserId | esitoolsupport/esibase.py:102-104 | An `EC2_USER_ID` that holds a value is kept. On success `EC2_USER_ID` holds a value and every other setting is unchanged. |
| EsiToolSupport.AccountEntry | esitoolsupport/esibase.py:68-71 | A line passes the account filter only with two whitespace-separated fields. The first field is a non-empty word starting with "(eucalyptus)" or "eucalyptus". The second field is non-empty. |
| EsiBaseProperties.AccountEntryShape | esitoolsupport/esibase.py:68-71 | A line that passes the filter strips to its first field, a run of whitespace, and its second field. |
| EsiBaseProperties.AccountEntryOfFields | esitoolsupport/esibase.py:68-71 | A line that strips to such a name, whitespace and a value passes the filter as exactly (name, value). This is the converse of AccountEntryShape. |
| EsiBaseProperties.SystemAccountNames | esitoolsupport/esibase.py:67-72 | Every account name `list_system_accounts` returns starts with "(eucalyptus)" or "eucalyptus". |
| EsiBaseProperties.UserIdNeedsExactAccount | esitoolsupport/esibase.py:67-104 | When `EC2_USER_ID` must be looked up, it resolves exactly when some account line's first field is exactly "eucalyptus". Otherwise loading fails with KeyError('eucalyptus'). |
| EsiBaseProperties.UserIdFromLastAccountLine | esitoolsupport/esibase.py:67-104 | The id stored as `EC2_USER_ID` comes from the last account line named exactly "eucalyptus". |
| EsiBaseProperties.CheckEnvironmentAfterFill | esitoolsupport/esibase.py:90-124 | After `_load_vars`, `check_environment` cannot raise KeyError. It either passes or exits with status 1. |
| EsiBaseProperties.ConfiguredComplete | esitoolsupport/esibase.py:74-124 | An `EsiBase` that starts has values for the four required settings, `EUCA_PROPERTIES_URL` and `EC2_USER_ID`, and stores every `VAR_NAMES` setting. |
| EsiBaseProperties.ConfiguredFailures | esitoolsupport/esibase.py:74-124 | Start-up fails only because a required setting is None, an account-tool argument is None, or no account is named exactly "eucalyptus". |
| EsiBaseProperties.AccountLookupPrecedesCheck | esitoolsupport/esibase.py:102-124 | The tool may exit non-zero and `--iam_url` may be missing. Start-up then fails at the account tool's None argument, before `check_environment` runs. |
| EsiToolSupport.PropertyValue | esitoolsupport/esibase.py:141-142 | A value is read exactly when the output has three whitespace-separated tokens, and it is then the third token, a non-empty word. |
| EsiBaseProperties.PropertyValueOfAssignment | esitoolsupport/esibase.py:140-142 | The `euctl` output line `name = value` yields `value`. |
| EsiToolSupport.EsiBase.constructor | esitoolsupport/esibase.py:27-31 | A new object has an empty `vars`, the given `args` and the chosen region. |
| EsiToolSupport.EsiBase.Create | esitoolsupport/esibase.py:27-33 | Construction succeeds exactly when loading and the environment check succeed. The new object's `vars` are the loaded settings. On failure the error is the one loading or the check produced. |
| EsiToolSupport.EsiBase.LoadVars | esitoolsupport/esibase.py:74-104 | `vars` becomes the result of the four loading steps applied to the old `vars`. When the user-id lookup fails, `vars` keeps the first three steps' result and the error is returned. |
| EsiToolSupport.EsiBase.ReadConfigOutput | esitoolsupport/esibase.py:76-83 | The loop over the tool's output lines leaves `vars` equal to ReadConfig of the old `vars`. |
| EsiToolSupport.EsiBase.SetPropertiesUrl | esitoolsupport/esibase.py:84-89 | Leaves `vars` equal to DefaultPropertiesUrl of the old `vars` and `--ep_url`. |
| EsiToolSupport.EsiBase.FillFromOptions | esitoolsupport/esibase.py:90-101 | The loop over `VAR_NAMES`, in any order, leaves `vars` equal to FillFromArgs over all eight settings. |
| EsiToolSupport.EsiBase.SetUserId | esitoolsupport/esibase.py:102-104 | Sets `EC2_USER_ID` as ResolveUserId says. On failure `vars` is unchanged. |
| EsiToolSupport.EsiBase.ListSystemAccounts | esitoolsupport/esibase.py:62-72 | Returns the accounts from the lines that pass the filter, with a later line overwriting an earlier one. It fails when `vars` cannot supply the tool's -U, -I or -S argument. |
| EsiToolSupport.EsiBase.GetProperty | esitoolsupport/esibase.py:137-145 | Succeeds exactly when `EUCA_PROPERTIES_URL` holds a value (launch failure of `euctl` is not modelled), and then returns the value read from the output. Otherwise it fails with KeyError or a None argument. |
| Text.Split | esitoolsupport/esibase.py:80-81 | `s.split(c)` gives one more piece than `s` has separators. No piece contains `c`. Joining the pieces with `c` gives `s` back. |
| Text.SplitAtOnlySeparator | esitoolsupport/esibase.py:81-82 | A string with exactly one separator splits into the text before it and the text after it. |
| Text.Tokens | esitoolsupport/esibase.py:141 | Every token of `s.split()` is non-empty and free of whitespace. |
| Text.TokensAcrossSpace | esitoolsupport/esibase.py:141 | A whitespace character separates the tokens on its two sides: the tokens of `a + sp + b` are those of `a` followed by those of `b`. |
| Text.TokensOfWord | esitoolsupport/esibase.py:141 | A non-empty word without whitespace is a single token. |
| Text.Strip | esitoolsupport/esibase.py:68 | The result of `strip()` neither starts nor ends with whitespace. |
| Text.StripShape | esitoolsupport/esibase.py:68 | `strip()` removes only whitespace, on either side. |
| Text.SplitOnce | esitoolsupport/esibase.py:68 | `split(None, 1)` gives at most two fields. The first is a non-empty word. The second, if present, is non-empty and does not start with whitespace. |
| Text.SplitOnceOfFields | esitoolsupport/esibase.py:68 | A word, whitespace and a remainder that starts with a non-space character split into exactly that word and that remainder. |
| Text.SplitOnceShape | esitoolsupport/esibase.py:68 | When `split(None, 1)` gives two fields, the string without its leading whitespace is the first field, whitespace, and the second field. |
| Entries.AbsorbKeys | esitoolsupport/esibase.py:80-83 | After a `d[k] = v` loop, a key is present exactly when it was present before or some line's entry names it. |
| Entries.AbsorbLastWins | esitoolsupport/esibase.py:80-83 | After a `d[k] = v` loop, a key's value is the one from the last entry that names it. |
| Entries.AbsorbUntouched | esitoolsupport/esibase.py:80-83 | A key that no entry names keeps its presence and its value. |

## Left out

- Running the external commands. This covers `_check_binary`, the `Popen`
  and `communicate` calls, and the `euare-accountlist` and `euctl`
  invocations. Their output and the configuration tool's exit status are
  parameters instead. A missing `euca-generate-environment-config` binary
  makes `_check_binary` exit; that failure is not modelled.
- EsiToolSupport.EsiBase.GetProperty: when `euctl` cannot be launched,
  `_get_property` catches the `OSError` and exits with status 1
  (`esitoolsupport/esibase.py:143-145`). The model always has the command's
  output, so that exit is not modelled, and success depends only on
  `EUCA_PROPERTIES_URL`.
- EsiToolSupport.EsiBase.ListSystemAccounts: when `euare-accountlist` cannot
  be launched, `list_system_accounts` lets the `OSError` escape. The model
  always has the command's output, so that exception is not modelled.
- `_set_property`: it only runs `euctl` and exits on failure, and the model
  has no way to run it.
- `_set_environment`: it writes `AWS_ACCESS_KEY_ID` and
  `AWS_SECRET_ACCESS_KEY` into the process environment, a global side effect.
  `EsiToolSupport.EsiBase.Create` stops after `check_environment`.
- `get_sts_connection`: it depends on boto's `STSConnection` and on
  `urlparse`.
- `add_arguments`: it only registers argparse options. The options
  themselves are the `Args` datatype.
- Error messages printed to standard error. `sys.exit(1)` and uncaught
  exceptions appear only as `Error` values.
- A `None` in a command line is modelled as `NoneArgument`. The exact
  exception Python raises for it (a `TypeError` from the process launcher)
  is not.
- Python strings are modelled as sequences of characters, with Python 2's
  byte-string whitespace. Encodings are not modelled.
