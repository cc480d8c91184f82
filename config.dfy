/** The environment-driven configuration: which variables the chosen
    storage backend requires, and which backends are enabled. */
module Config {
  import opened Util

  /** The environment variables the configuration reads; `None` is unset. */
  datatype Env = Env(
    airtableApiKey: Option<string>,
    airtableBaseId: Option<string>,
    storageBackend: Option<string>,
    spreadsheetUrl: Option<string>,
    pk: Option<string>,
    dryRun: Option<string>)

  /** `STORAGE_BACKEND`, `hybrid` when unset. */
  function Backend(e: Env): (b: string)
    ensures e.storageBackend.None? ==> b == "hybrid"
  {
    e.storageBackend.GetOr("hybrid")
  }

  /** `DRY_RUN`: on only when the variable reads `true` in any letter case. */
  function DryRun(e: Env): (b: bool)
    ensures e.dryRun.None? ==> !b
  {
    EnvFlag(e.dryRun)
  }

  predicate UsesAirtable(backend: string) {
    backend == "airtable" || backend == "hybrid"
  }

  /** The variables `validate` can report, each reported by its `Name`. */
  datatype Key = AirtableApiKey | AirtableBaseId | SpreadsheetUrl | Pk

  function Name(k: Key): string {
    match k
    case AirtableApiKey => "AIRTABLE_API_KEY"
    case AirtableBaseId => "AIRTABLE_BASE_ID"
    case SpreadsheetUrl => "SPREADSHEET_URL"
    case Pk => "PK"
  }

  /** The order in which `validate` checks the variables. */
  const Keys: seq<Key> := [AirtableApiKey, AirtableBaseId, SpreadsheetUrl, Pk]

  function ValueOf(e: Env, k: Key): Option<string> {
    match k
    case AirtableApiKey => e.airtableApiKey
    case AirtableBaseId => e.airtableBaseId
    case SpreadsheetUrl => e.spreadsheetUrl
    case Pk => e.pk
  }

  /** Whether a backend requires a variable: the Airtable pair for
      `airtable` and `hybrid`, the sheet URL for `sheets`, the private key
      always. */
  predicate Requires(backend: string, k: Key) {
    match k
    case AirtableApiKey => UsesAirtable(backend)
    case AirtableBaseId => UsesAirtable(backend)
    case SpreadsheetUrl => backend == "sheets"
    case Pk => true
  }

  predicate IsMissing(e: Env, k: Key) {
    Requires(Backend(e), k) && !Truthy(ValueOf(e, k))
  }

  /** The variables of `keys` that are missing, in their order. */
  function MissingAmong(e: Env, keys: seq<Key>): seq<Key> {
    if keys == [] then []
    else (if IsMissing(e, keys[0]) then [keys[0]] else []) + MissingAmong(e, keys[1..])
  }

  /** `Config.validate()`: the required variables that are unset or empty. */
  function Validate(e: Env): (missing: seq<Key>)
    ensures forall k :: k in missing <==> IsMissing(e, k)
    ensures |missing| <= |Keys|
  {
    var backend := Backend(e);
    var airtable :=
      if UsesAirtable(backend) then
        (if !Truthy(e.airtableApiKey) then [AirtableApiKey] else [])
        + (if !Truthy(e.airtableBaseId) then [AirtableBaseId] else [])
      else [];
    var sheets := if backend == "sheets" && !Truthy(e.spreadsheetUrl) then [SpreadsheetUrl] else [];
    var pk := if !Truthy(e.pk) then [Pk] else [];
    airtable + sheets + pk
  }

  /** The report lists the missing variables in the fixed order of `Keys`. */
  lemma ValidateKeepsOrder(e: Env)
    ensures Validate(e) == MissingAmong(e, Keys)
  {
    assert Keys[1..] == [AirtableBaseId, SpreadsheetUrl, Pk];
    assert [AirtableBaseId, SpreadsheetUrl, Pk][1..] == [SpreadsheetUrl, Pk];
    assert [SpreadsheetUrl, Pk][1..] == [Pk];
    assert [Pk][1..] == [];
    var p := MissingAmong(e, [Pk]);
    assert MissingAmong(e, []) == [];
    assert p == (if IsMissing(e, Pk) then [Pk] else []) + [];
    var sp := MissingAmong(e, [SpreadsheetUrl, Pk]);
    assert sp == (if IsMissing(e, SpreadsheetUrl) then [SpreadsheetUrl] else []) + p;
    var bsp := MissingAmong(e, [AirtableBaseId, SpreadsheetUrl, Pk]);
    assert bsp == (if IsMissing(e, AirtableBaseId) then [AirtableBaseId] else []) + sp;
    assert MissingAmong(e, Keys) == (if IsMissing(e, AirtableApiKey) then [AirtableApiKey] else []) + bsp;
  }

  /** The report is empty exactly when every variable this backend requires is set. */
  lemma ValidateEmptyIff(e: Env)
    ensures Validate(e) == [] <==>
      && (UsesAirtable(Backend(e)) ==> Truthy(e.airtableApiKey) && Truthy(e.airtableBaseId))
      && (Backend(e) == "sheets" ==> Truthy(e.spreadsheetUrl))
      && Truthy(e.pk)
  {
    if Validate(e) == [] {
      assert !IsMissing(e, AirtableApiKey) && !IsMissing(e, AirtableBaseId);
      assert !IsMissing(e, SpreadsheetUrl) && !IsMissing(e, Pk);
    }
  }

  /** The private key is reported missing under every backend, the sheet
      URL under `sheets` only, and the Airtable pair under `airtable` and
      `hybrid` only. */
  lemma ValidatePerKey(e: Env)
    ensures Pk in Validate(e) <==> !Truthy(e.pk)
    ensures SpreadsheetUrl in Validate(e) <==> Backend(e) == "sheets" && !Truthy(e.spreadsheetUrl)
    ensures AirtableApiKey in Validate(e) <==> UsesAirtable(Backend(e)) && !Truthy(e.airtableApiKey)
    ensures AirtableBaseId in Validate(e) <==> UsesAirtable(Backend(e)) && !Truthy(e.airtableBaseId)
  {
  }

  /** With nothing set, the default `hybrid` backend misses the Airtable pair and the key. */
  lemma EmptyEnvironment()
    ensures Validate(Env(None, None, None, None, None, None)) == [AirtableApiKey, AirtableBaseId, Pk]
  {
  }

  /** `is_airtable_enabled`. */
  function IsAirtableEnabled(e: Env): (b: bool)
    ensures b <==> (Backend(e) == "airtable" || Backend(e) == "hybrid") && e.airtableApiKey.Some? && e.airtableApiKey.value != ""
  {
    UsesAirtable(Backend(e)) && Truthy(e.airtableApiKey)
  }

  /** `is_sheets_enabled`. */
  function IsSheetsEnabled(e: Env): (b: bool)
    ensures b <==> Backend(e) == "sheets" && e.spreadsheetUrl.Some? && e.spreadsheetUrl.value != ""
  {
    Backend(e) == "sheets" && Truthy(e.spreadsheetUrl)
  }

  /** `is_sqlite_enabled`. */
  function IsSqliteEnabled(e: Env): (b: bool)
    ensures b <==> Backend(e) == "hybrid" || Backend(e) == "sqlite"
  {
    Backend(e) in {"hybrid", "sqlite"}
  }

  /** A configuration that validates has Airtable enabled under the
      `airtable` and `hybrid` backends and the sheet enabled under
      `sheets`; the sheet and Airtable are never both enabled. */
  lemma ValidEnablesBackend(e: Env)
    requires Validate(e) == []
    ensures UsesAirtable(Backend(e)) ==> IsAirtableEnabled(e)
    ensures Backend(e) == "sheets" ==> IsSheetsEnabled(e)
    ensures !(IsAirtableEnabled(e) && IsSheetsEnabled(e))
  {
    ValidateEmptyIff(e);
  }

  /** Unset, the backend is `hybrid`: Airtable (given a key) and SQLite together, never the sheet. */
  lemma DefaultBackendIsHybrid(e: Env)
    requires e.storageBackend.None?
    ensures IsSqliteEnabled(e)
    ensures !IsSheetsEnabled(e)
    ensures IsAirtableEnabled(e) <==> Truthy(e.airtableApiKey)
  {
  }
}
