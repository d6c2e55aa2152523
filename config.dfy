/** The configuration checks of `DropBoxStorage.__init__` and
    `DropBoxTeamStorage.__init__`. Settings are an explicit input; an
    argument given to the constructor takes precedence over its setting the
    way Python's `or` does, so an empty string gives way as `None` does. */
module Config {
  import opened Text
  import opened Errors

  /** The Django settings the constructors read; None when a setting is not
      defined. */
  datatype Settings = Settings(
    oauth2Token: Option<string>,    // DROPBOX_OAUTH2_TOKEN
    rootPath: Option<string>,       // DROPBOX_ROOT_PATH
    teamNamespace: Option<string>,  // DROPBOX_TEAM_NAMESPACE
    teamAdmin: Option<string>)      // DROPBOX_TEAM_ADMIN

  /** The team scope of a team storage: the namespace the client is rooted
      at and the admin member it acts as. */
  datatype Team = Team(namespace: string, admin: string)

  /** What a successfully constructed storage holds. */
  datatype Config = Config(accessToken: string, rootPath: string, team: Option<Team>)

  const TOKEN_MISSING: string := "You must configure a token auth at'settings.DROPBOX_OAUTH2_TOKEN'."
  const NAMESPACE_MISSING: string := "You must configure a namespace at'settings.DROPBOX_TEAM_NAMESPACE'."
  const ADMIN_MISSING: string := "You must configure an admin at'settings.DROPBOX_TEAM_ADMIN'."

  /** Python's `arg or fallback` where `arg` is an optional string. */
  function OrElse(arg: Option<string>, fallback: Option<string>): (r: Option<string>)
    ensures arg.Some? && arg.value != "" ==> r == arg
    ensures (arg.None? || arg == Some("")) ==> r == fallback
  {
    if arg.Some? && arg.value != "" then arg else fallback
  }

  /** `root_path or setting('DROPBOX_ROOT_PATH', '/')`. */
  function RootPathOf(rootPath: Option<string>, s: Settings): (r: string)
    ensures rootPath.Some? && rootPath.value != "" ==> r == rootPath.value
    ensures (rootPath.None? || rootPath == Some("")) && s.rootPath.Some? ==> r == s.rootPath.value
    ensures (rootPath.None? || rootPath == Some("")) && s.rootPath.None? ==> r == "/"
  {
    match OrElse(rootPath, s.rootPath)
    case Some(p) => p
    case None => "/"
  }

  /** `DropBoxStorage.__init__`: fails exactly when no token is given and
      none is configured. */
  function StorageConfig(token: Option<string>, rootPath: Option<string>, s: Settings): (r: Result<Config>)
    ensures r.Err? <==> (token.None? || token == Some("")) && s.oauth2Token.None?
    ensures r.Err? ==> r.error == ImproperlyConfigured(TOKEN_MISSING)
    ensures r.Ok? ==> r.value.team.None? && r.value.rootPath == RootPathOf(rootPath, s)
    ensures r.Ok? && token.Some? && token.value != "" ==> r.value.accessToken == token.value
    ensures r.Ok? && (token.None? || token == Some("")) ==> r.value.accessToken == s.oauth2Token.value
  {
    match OrElse(token, s.oauth2Token)
    case None => Err(ImproperlyConfigured(TOKEN_MISSING))
    case Some(t) => Ok(Config(t, RootPathOf(rootPath, s), None))
  }

  /** `DropBoxTeamStorage.__init__` as written: the three checks in order,
      then a call to `DropboxTeam`, a name the module never imports. No input
      constructs a team storage; a missing setting fails as intended. */
  function TeamStorageConfigAsWritten(token: Option<string>, rootPath: Option<string>,
                                      teamNamespace: Option<string>, teamAdmin: Option<string>,
                                      s: Settings): (r: Result<Config>)
    ensures r.Err?
    ensures (OrElse(token, s.oauth2Token).Some? && OrElse(teamNamespace, s.teamNamespace).Some? &&
             OrElse(teamAdmin, s.teamAdmin).Some?)
            ==> r == Err(NameError("DropboxTeam"))
    ensures (OrElse(token, s.oauth2Token).None? || OrElse(teamNamespace, s.teamNamespace).None? ||
             OrElse(teamAdmin, s.teamAdmin).None?)
            ==> r == TeamStorageConfig(token, rootPath, teamNamespace, teamAdmin, s)
  {
    match (OrElse(token, s.oauth2Token), OrElse(teamNamespace, s.teamNamespace), OrElse(teamAdmin, s.teamAdmin))
    case (None, _, _) => Err(ImproperlyConfigured(TOKEN_MISSING))
    case (_, None, _) => Err(ImproperlyConfigured(NAMESPACE_MISSING))
    case (_, _, None) => Err(ImproperlyConfigured(ADMIN_MISSING))
    case (Some(_), Some(_), Some(_)) => Err(NameError("DropboxTeam"))
  }

  /** `DropBoxTeamStorage.__init__` as intended: the token, then the team
      namespace, then the team admin must be present, checked in that order;
      with all three the storage is built with its team scope. */
  function TeamStorageConfig(token: Option<string>, rootPath: Option<string>,
                             teamNamespace: Option<string>, teamAdmin: Option<string>,
                             s: Settings): (r: Result<Config>)
    ensures OrElse(token, s.oauth2Token).None? ==> r == Err(ImproperlyConfigured(TOKEN_MISSING))
    ensures OrElse(token, s.oauth2Token).Some? && OrElse(teamNamespace, s.teamNamespace).None? ==>
              r == Err(ImproperlyConfigured(NAMESPACE_MISSING))
    ensures OrElse(token, s.oauth2Token).Some? && OrElse(teamNamespace, s.teamNamespace).Some? &&
            OrElse(teamAdmin, s.teamAdmin).None? ==>
              r == Err(ImproperlyConfigured(ADMIN_MISSING))
    ensures r.Ok? <==> OrElse(token, s.oauth2Token).Some? && OrElse(teamNamespace, s.teamNamespace).Some? &&
                       OrElse(teamAdmin, s.teamAdmin).Some?
    ensures r.Ok? ==> r.value.team == Some(Team(OrElse(teamNamespace, s.teamNamespace).value,
                                                OrElse(teamAdmin, s.teamAdmin).value))
  {
    match (OrElse(token, s.oauth2Token), OrElse(teamNamespace, s.teamNamespace), OrElse(teamAdmin, s.teamAdmin))
    case (None, _, _) => Err(ImproperlyConfigured(TOKEN_MISSING))
    case (_, None, _) => Err(ImproperlyConfigured(NAMESPACE_MISSING))
    case (_, _, None) => Err(ImproperlyConfigured(ADMIN_MISSING))
    case (Some(t), Some(ns), Some(admin)) => Ok(Config(t, RootPathOf(rootPath, s), Some(Team(ns, admin))))
  }

  /** The team variant makes the base checks and more: it fails whenever the
      base storage would, with the same error, and when it succeeds it holds
      the token and root path the base storage would. */
  lemma TeamStorageRefinesBase(token: Option<string>, rootPath: Option<string>,
                               teamNamespace: Option<string>, teamAdmin: Option<string>,
                               s: Settings)
    ensures StorageConfig(token, rootPath, s).Err? ==>
              TeamStorageConfig(token, rootPath, teamNamespace, teamAdmin, s) == StorageConfig(token, rootPath, s)
    ensures TeamStorageConfig(token, rootPath, teamNamespace, teamAdmin, s).Ok? ==>
              StorageConfig(token, rootPath, s).Ok? &&
              TeamStorageConfig(token, rootPath, teamNamespace, teamAdmin, s).value.accessToken
                == StorageConfig(token, rootPath, s).value.accessToken &&
              TeamStorageConfig(token, rootPath, teamNamespace, teamAdmin, s).value.rootPath
                == StorageConfig(token, rootPath, s).value.rootPath
  {
  }

  /** A fully configured team storage is refused as written and constructed
      as intended. */
  lemma TeamStorageMissingImport()
    ensures TeamStorageConfigAsWritten(Some("t"), None, Some("ns"), Some("admin"), Settings(None, None, None, None))
            == Err(NameError("DropboxTeam"))
    ensures TeamStorageConfig(Some("t"), None, Some("ns"), Some("admin"), Settings(None, None, None, None)).Ok?
  {
  }
}
