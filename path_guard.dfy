/** The file-system sandbox: `expandPath` for configured directories and
    `isPathAllowed`, the check every file operation step passes first. */
module PathGuard {
  import opened Strings
  import opened Model

  /** `expandPath`: `$HOME`, then `${HOME}`, then `~` are replaced, each
      everywhere, by the home directory. */
  function ExpandPath(path: string, home: string): string {
    if path == "" then path
    else ReplaceAll(ReplaceAll(ReplaceAll(path, "$HOME", home), "${HOME}", home), "~", home)
  }

  /** A path without `$` and `~` is left as it is. */
  lemma ExpandPathPlain(path: string, home: string)
    requires '$' !in path && '~' !in path
    ensures ExpandPath(path, home) == path
  {
    LeadCharAbsent(path, "$HOME");
    ReplaceAllAbsent(path, "$HOME", home);
    LeadCharAbsent(path, "${HOME}");
    ReplaceAllAbsent(path, "${HOME}", home);
    ContainsChar(path, '~');
    ReplaceAllAbsent(path, "~", home);
  }

  /** A pattern whose first character does not occur in `s` does not occur in `s`. */
  lemma {:induction false} LeadCharAbsent(s: string, pat: string)
    requires |pat| > 0 && pat[0] !in s
    ensures !Contains(s, pat)
    decreases |s|
  {
    if |s| > 0 {
      LeadCharAbsent(s[1..], pat);
      assert s[0] != pat[0];
    }
  }

  /** A leading `~` becomes the home directory; when the home directory holds
      no `~`, no `~` is left. */
  lemma ExpandTilde(rest: string, home: string)
    requires '$' !in rest && '~' !in rest
    ensures ExpandPath("~" + rest, home) == home + rest
    ensures '~' !in home ==> '~' !in ExpandPath("~" + rest, home)
  {
    var p := "~" + rest;
    assert '$' !in p;
    LeadCharAbsent(p, "$HOME");
    ReplaceAllAbsent(p, "$HOME", home);
    LeadCharAbsent(p, "${HOME}");
    ReplaceAllAbsent(p, "${HOME}", home);
    ReplaceAllAtFront("~", rest, home);
    ContainsChar(rest, '~');
    ReplaceAllAbsent(rest, "~", home);
    if '~' !in home {
      ReplaceCharRemovesIt(p, '~', home);
    }
  }

  /** The normalised form a path is compared in: resolved, then lower-cased. */
  function Normalize(resolve: string -> string, path: string): string {
    ToLower(resolve(path))
  }

  /** `CONFIG.ALLOWED_DIRECTORIES.some(...)`: `normalized` starts with the
      normalised form of one of `dirs`. */
  function UnderSomeDirectory(resolve: string -> string, normalized: string, dirs: seq<string>): bool
    decreases |dirs|
  {
    if dirs == [] then false
    else StartsWith(normalized, Normalize(resolve, dirs[0])) || UnderSomeDirectory(resolve, normalized, dirs[1..])
  }

  /** `isPathAllowed`: no `..` in the normalised path, and the normalised path
      starts (as a string, not at a segment boundary) with a normalised allowed
      directory. */
  function IsPathAllowed(env: Env, path: string): bool {
    var normalized := Normalize(env.resolve, path);
    if Contains(normalized, "..") then false
    else UnderSomeDirectory(env.resolve, normalized, env.allowedDirectories)
  }

  lemma {:induction false} UnderSomeDirectoryExists(resolve: string -> string, normalized: string, dirs: seq<string>)
    ensures UnderSomeDirectory(resolve, normalized, dirs)
            <==> exists i :: 0 <= i < |dirs| && StartsWith(normalized, Normalize(resolve, dirs[i]))
    decreases |dirs|
  {
    if dirs != [] {
      UnderSomeDirectoryExists(resolve, normalized, dirs[1..]);
      if exists i :: 0 <= i < |dirs| && StartsWith(normalized, Normalize(resolve, dirs[i])) {
        var i :| 0 <= i < |dirs| && StartsWith(normalized, Normalize(resolve, dirs[i]));
        if i > 0 {
          assert dirs[1..][i - 1] == dirs[i];
        }
      }
      if UnderSomeDirectory(resolve, normalized, dirs[1..]) {
        var i :| 0 <= i < |dirs[1..]| && StartsWith(normalized, Normalize(resolve, dirs[1..][i]));
        assert dirs[i + 1] == dirs[1..][i];
      }
    }
  }

  /** The guard rejects every path whose normalised form contains `..`, and
      otherwise accepts exactly the paths whose normalised form starts with
      the normalised form of some allowed directory. */
  lemma IsPathAllowedSpec(env: Env, path: string)
    ensures Contains(Normalize(env.resolve, path), "..") ==> !IsPathAllowed(env, path)
    ensures !Contains(Normalize(env.resolve, path), "..") ==>
              (IsPathAllowed(env, path) <==>
                 exists i :: 0 <= i < |env.allowedDirectories|
                   && StartsWith(Normalize(env.resolve, path), Normalize(env.resolve, env.allowedDirectories[i])))
  {
    UnderSomeDirectoryExists(env.resolve, Normalize(env.resolve, path), env.allowedDirectories);
  }

  /** A path that differs from another only in the case of its ASCII letters,
      once resolved, gets the same verdict. */
  lemma {:induction false} CaseInsensitive(env: Env, p: string, q: string)
    requires ToLower(env.resolve(p)) == ToLower(env.resolve(q))
    ensures IsPathAllowed(env, p) == IsPathAllowed(env, q)
  {
  }

  /** The allow-list `["/home/u/Desktop"]` as configured from `~/Desktop`,
      with a resolver that leaves paths alone, as `path.resolve` does with
      absolute paths that hold no `.` or `..` segment. */
  function DesktopOnly(): Env {
    Env(false, ["/home/u/Desktop"], (p: string) => p, (c: string) => true,
        (id: string, i: nat) => Done, 30)
  }

  /** `/etc/passwd` is outside `~/Desktop`. */
  lemma EtcPasswdDenied()
    ensures !IsPathAllowed(DesktopOnly(), "/etc/passwd")
  {
    var n := Normalize(DesktopOnly().resolve, "/etc/passwd");
    assert |n| == 11;
    assert !StartsWith(n, Normalize(DesktopOnly().resolve, "/home/u/Desktop"));
  }

  /** `path.resolve` collapses `..` segments, so a path written under the
      allowed directory that climbs out of it arrives resolved to where it
      leads: with a resolver that takes `/home/u/Desktop/../../etc` to
      `/home/etc` and leaves the directory alone, the prefix test refuses it. */
  lemma TraversalDenied(env: Env)
    requires env.allowedDirectories == ["/home/u/Desktop"]
    requires env.resolve("/home/u/Desktop") == "/home/u/Desktop"
    requires env.resolve("/home/u/Desktop/../../etc") == "/home/etc"
    ensures !IsPathAllowed(env, "/home/u/Desktop/../../etc")
  {
    var n := Normalize(env.resolve, "/home/u/Desktop/../../etc");
    assert '.' !in n;
    LeadCharAbsent(n, "..");
    var d := Normalize(env.resolve, env.allowedDirectories[0]);
    assert |n| < |d|;
    assert !UnderSomeDirectory(env.resolve, n, env.allowedDirectories[1..]);
    assert !UnderSomeDirectory(env.resolve, n, env.allowedDirectories);
  }

  /** The `..` test reads the text, not the segments: a file name holding two
      dots is refused even inside the allowed directory, where `path.resolve`
      leaves the path as it is. */
  lemma DoubleDotNameDenied(env: Env)
    requires env.resolve("/home/u/Desktop/notes..txt") == "/home/u/Desktop/notes..txt"
    ensures !IsPathAllowed(env, "/home/u/Desktop/notes..txt")
  {
    var n := Normalize(env.resolve, "/home/u/Desktop/notes..txt");
    assert OccursAt(n, "..", 21);
    ContainsAt(n, "..");
  }

  /** The check is a string prefix test: a sibling directory whose name
      extends the allowed one is accepted. */
  lemma SiblingPrefixAccepted()
    ensures IsPathAllowed(DesktopOnly(), "/home/u/Desktop-private/notes")
  {
    var env := DesktopOnly();
    var p := "/home/u/Desktop-private/notes";
    var n := Normalize(env.resolve, p);
    var d := Normalize(env.resolve, "/home/u/Desktop");
    assert n[..|d|] == d;
    assert '.' !in p;
    assert '.' !in n;
    LeadCharAbsent(n, "..");
  }
}
