/**
 * Output-directory creation before a stage writes: `fs.mkdir(dir, {recursive: true})`
 * with some error codes swallowed. The mkdir call itself is I/O; its outcome is
 * the parameter `mkdirError` (`None` when it succeeded, otherwise the error code).
 */
module DirCreation {
  import opened Outcomes

  /** The codes `ensureDirSafe` (start-web-server.js) and `ensureDir` (imageAgent-windows-safe.js) swallow. */
  const ToleratedCodes: set<string> := {"EEXIST", "EPERM", "EACCES"}

  /**
   * The tolerant variant: a concurrent create of the same directory (EEXIST) and
   * a permission error (EPERM, EACCES, on the assumption the directory is usable)
   * are swallowed; every other error propagates unchanged.
   */
  function EnsureDirTolerant(mkdirError: Option<string>): (r: Result<(), string>)
    ensures r.Err? <==> mkdirError.Some? && mkdirError.value !in ToleratedCodes
    ensures r.Err? ==> r.error == mkdirError.value
  {
    match mkdirError
    case None => Ok(())
    case Some(code) =>
      if code != "EEXIST" then
        if code == "EPERM" || code == "EACCES" then Ok(()) else Err(code)
      else Ok(())
  }

  /** The strict variant of imageAgent-context.js and imageAgent.js: only EEXIST is swallowed. */
  function EnsureDirStrict(mkdirError: Option<string>): (r: Result<(), string>)
    ensures r.Err? <==> mkdirError.Some? && mkdirError.value != "EEXIST"
    ensures r.Err? ==> r.error == mkdirError.value
  {
    match mkdirError
    case None => Ok(())
    case Some(code) => if code != "EEXIST" then Err(code) else Ok(())
  }

  /** The tolerant variant fails only where the strict one does, and they differ exactly on EPERM and EACCES. */
  lemma TolerantFailsLess(mkdirError: Option<string>)
    ensures EnsureDirTolerant(mkdirError).Err? ==> EnsureDirStrict(mkdirError) == EnsureDirTolerant(mkdirError)
    ensures EnsureDirTolerant(mkdirError) != EnsureDirStrict(mkdirError) <==>
      mkdirError == Some("EPERM") || mkdirError == Some("EACCES")
  {
  }
}
