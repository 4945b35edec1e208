/** The environment a command runs with. */
module Env {

  type Vars = map<string, string>

  const SAFE_PATH := "/usr/sbin:/usr/bin:/sbin:/bin"

  const ALWAYS: set<string> := {"TERM", "LANG", "LC_ALL", "LC_MESSAGES", "TZ"}

  /** Kept by name, unless the deny pattern matches the name followed by an equals sign. */
  predicate Passes(keep: set<string>, denied: string -> bool, name: string) {
    (name in ALWAYS || name in keep) && !denied(name)
  }

  function Scrubbed(env: Vars, keep: set<string>, denied: string -> bool): Vars {
    (map name | name in env && Passes(keep, denied, name) :: env[name])["PATH" := SAFE_PATH]
  }

  /** Walks the variables in no particular order. */
  method ScrubEnv(env: Vars, keep: set<string>, denied: string -> bool) returns (clean: Vars, dropped: set<string>)
    ensures clean == Scrubbed(env, keep, denied)
    ensures dropped == env.Keys - set name | name in env && Passes(keep, denied, name)
  {
    clean, dropped := map[], {};
    var left := env.Keys;
    while left != {}
      invariant left <= env.Keys
      invariant clean == map name | name in env && name !in left && Passes(keep, denied, name) :: env[name]
      invariant dropped == set name | name in env && name !in left && !Passes(keep, denied, name)
      decreases |left|
    {
      var name :| name in left;
      left := left - {name};
      if Passes(keep, denied, name) {
        clean := clean[name := env[name]];
      } else {
        dropped := dropped + {name};
      }
    }
    clean := clean["PATH" := SAFE_PATH];
  }

  /** A variable reaches the command as it was given exactly if its name is one of five or the policy keeps
      it, and is not denied; the path is the daemon's own, and nothing else reaches it. */
  lemma ReachesCommand(env: Vars, keep: set<string>, denied: string -> bool, name: string)
    ensures var clean := Scrubbed(env, keep, denied);
      if name == "PATH" then name in clean && clean[name] == "/usr/sbin:/usr/bin:/sbin:/bin"
      else
        && (name in clean <==>
              && name in env && !denied(name)
              && (name in keep || name == "TERM" || name == "LANG" || name == "LC_ALL" || name == "LC_MESSAGES"
                 || name == "TZ"))
        && (name in clean ==> clean[name] == env[name])
  {
  }

  /** A restart scrubs the stored, already scrubbed environment again: under the same policy the
      command gets the environment its first waiter would have given it, and nothing unlisted. */
  lemma ScrubTwice(env: Vars, keep: set<string>, denied: string -> bool)
    ensures var clean := Scrubbed(env, keep, denied);
      && Scrubbed(clean, keep, denied) == clean
      && clean["PATH"] == SAFE_PATH
      && forall name | name in clean && name != "PATH" :: Passes(keep, denied, name) && clean[name] == env[name]
  {
    var clean := Scrubbed(env, keep, denied);
    var again := Scrubbed(clean, keep, denied);
    assert again.Keys == clean.Keys;
    assert forall name | name in clean :: again[name] == clean[name];
  }
}
