/**
 * Setting up a Claude home for CI from a configuration snapshot: the
 * settings sanitiser and what `setup_ci_environment` writes and returns.
 * The files written are modelled as the values they would hold; JSON
 * serialisation and the file system are not modelled.
 */
module ConfigImporter {
  import opened Wrappers
  import Paths

  /** A JSON value, as `json.loads` would produce it. */
  datatype Json =
    | JNull
    | JBool(b: bool)
    | JNumber(n: int)
    | JString(s: string)
    | JArray(items: seq<Json>)
    | JObject(fields: map<string, Json>)

  type Settings = map<string, Json>

  /** `ClaudeConfigSnapshot`, without the version, timestamp and machine name nothing here reads. */
  datatype ClaudeConfigSnapshot = ClaudeConfigSnapshot(
    globalClaudeMd: Option<string>,
    settings: Settings,
    mcpServers: map<string, Json>,
    skills: map<string, string>)

  /** The local paths `_sanitize_for_ci` drops. */
  const KeysToRemove: seq<string> := ["workspace", "recent_projects", "last_opened"]

  /** The MCP server entries, under both spellings. */
  const McpKeys: set<string> := {"mcp_servers", "mcpServers"}

  const Removed: set<string> := {"workspace", "recent_projects", "last_opened"}

  function KeySet(keys: seq<string>): set<string>
  {
    set k | k in keys
  }

  /** The settings after the CI overrides, before the local paths are dropped. */
  function Overridden(settings: Settings, disableMcp: bool): Settings
  {
    var telemetryOff := settings["analytics" := JBool(false)]["telemetry" := JBool(false)];
    if disableMcp then telemetryOff["mcp_servers" := JObject(map[])]["mcpServers" := JObject(map[])]
    else telemetryOff
  }

  /** What `_sanitize_for_ci` returns. */
  function Sanitized(settings: Settings, disableMcp: bool): Settings
  {
    Overridden(settings, disableMcp) - Removed
  }

  /** `_sanitize_for_ci`: copy, override, then pop each local path. */
  method SanitizeForCi(settings: Settings, disableMcp: bool) returns (sanitized: Settings)
    ensures sanitized == Sanitized(settings, disableMcp)
  {
    sanitized := settings;
    sanitized := sanitized["analytics" := JBool(false)];
    sanitized := sanitized["telemetry" := JBool(false)];
    if disableMcp {
      sanitized := sanitized["mcp_servers" := JObject(map[])];
      sanitized := sanitized["mcpServers" := JObject(map[])];
    }
    ghost var overridden := sanitized;
    for i := 0 to |KeysToRemove|
      invariant sanitized == overridden - KeySet(KeysToRemove[..i])
    {
      assert KeySet(KeysToRemove[..i + 1]) == KeySet(KeysToRemove[..i]) + {KeysToRemove[i]};
      sanitized := sanitized - {KeysToRemove[i]};
    }
    assert KeysToRemove[..|KeysToRemove|] == KeysToRemove;
    assert KeySet(KeysToRemove) == Removed;
  }

  /**
   * The sanitised settings: analytics and telemetry are off; with MCP
   * disabled both server entries are empty, otherwise they are as given;
   * the local paths are gone; every other key keeps its value.
   */
  lemma SanitizedContents(settings: Settings, disableMcp: bool)
    ensures var r := Sanitized(settings, disableMcp);
      && "analytics" in r && r["analytics"] == JBool(false)
      && "telemetry" in r && r["telemetry"] == JBool(false)
      && (disableMcp ==> forall k :: k in McpKeys ==> k in r && r[k] == JObject(map[]))
      && (!disableMcp ==> forall k :: k in McpKeys ==> (k in r <==> k in settings) && (k in r ==> r[k] == settings[k]))
      && "workspace" !in r && "recent_projects" !in r && "last_opened" !in r
      && (forall k :: k !in Removed && k != "analytics" && k != "telemetry" && k !in McpKeys ==>
            (k in r <==> k in settings) && (k in r ==> r[k] == settings[k]))
  {
  }

  /** The keys of the result: those of the input and the overrides, less the local paths. */
  lemma SanitizedKeys(settings: Settings, disableMcp: bool)
    ensures Sanitized(settings, disableMcp).Keys
      == (settings.Keys + {"analytics", "telemetry"} + (if disableMcp then McpKeys else {})) - Removed
  {
  }

  /** Sanitising sanitised settings changes nothing. */
  lemma SanitizedIdempotent(settings: Settings, disableMcp: bool)
    ensures Sanitized(Sanitized(settings, disableMcp), disableMcp) == Sanitized(settings, disableMcp)
  {
    var once := Sanitized(settings, disableMcp);
    var twice := Sanitized(once, disableMcp);
    SanitizedContents(settings, disableMcp);
    SanitizedContents(once, disableMcp);
    assert twice.Keys == once.Keys;
  }

  /** The files `setup_ci_environment` leaves under the Claude home, as values. */
  datatype ClaudeHome = ClaudeHome(
    claudeMd: Option<string>,
    settings: Settings,
    mcpConfig: map<string, Json>,
    skills: map<string, string>)

  /** `setup_ci_environment`: the Claude home it writes and the environment variables it returns. */
  method SetupCiEnvironment(snapshot: ClaudeConfigSnapshot, tempDir: string, disableMcp: bool)
    returns (home: ClaudeHome, env: map<string, string>)
    ensures home.claudeMd == (if Truthy(snapshot.globalClaudeMd) then snapshot.globalClaudeMd else None)
    ensures home.settings == Sanitized(snapshot.settings, disableMcp)
    ensures home.mcpConfig == if disableMcp then map[] else snapshot.mcpServers
    ensures home.skills == snapshot.skills
    ensures env == map["HOME" := Paths.Normalize(tempDir), "CLAUDE_HOME" := Paths.JoinPath(tempDir, ".claude")]
  {
    var claudeHome := Paths.JoinPath(tempDir, ".claude");
    var claudeMd := None;
    if Truthy(snapshot.globalClaudeMd) {
      claudeMd := snapshot.globalClaudeMd;
    }
    var settings := SanitizeForCi(snapshot.settings, disableMcp);
    var mcpConfig := if disableMcp then map[] else snapshot.mcpServers;
    home := ClaudeHome(claudeMd, settings, mcpConfig, snapshot.skills);
    env := map["HOME" := Paths.Normalize(tempDir), "CLAUDE_HOME" := claudeHome];
  }
}
