/**
  The side-loaded RoleBench profiles both prompt-building orchestrators
  read: `desc.json` maps roles to descriptions and `scripts.json` maps
  roles to catchphrases, given either as a list or as a single string. The
  loaded table is a global dictionary that loading updates in place.
*/
module Profiles {
  import opened Chat

  /** A `scripts.json` value: a list of phrases or one string. */
  datatype Script = Many(phrases: seq<string>) | One(phrase: string)

  datatype Profile = Profile(desc: string, catchphrases: seq<string>)

  /** The two files; `None` stands for a file that does not exist. */
  datatype ProfileFiles = ProfileFiles(descriptions: Option<map<string, string>>,
                                       scripts: Option<map<string, Script>>)

  /** Loading raises `FileNotFoundError`: explicitly for a missing
      `desc.json`, from `open` for a missing `scripts.json`. */
  datatype LoadError = DescriptionsMissing | ScriptsMissing

  datatype Result<T> = Ok(value: T) | Err(error: LoadError)

  /** Both files exist. */
  predicate Complete(files: ProfileFiles) {
    files.descriptions.Some? && files.scripts.Some?
  }

  /** The error loading raises when a file is missing. */
  function Missing(files: ProfileFiles): LoadError {
    if files.descriptions.None? then DescriptionsMissing else ScriptsMissing
  }

  /** The table a successful load merges in. */
  function Loaded(files: ProfileFiles): map<string, Profile>
    requires Complete(files)
  {
    Table(files.descriptions.value, files.scripts.value)
  }

  /** A script with the single-string case normalised. */
  function Phrases(script: Script): seq<string> {
    match script
    case Many(ps) => ps
    case One(p) => if p != "" then [p] else []
  }

  /** The entry `load_profiles` stores for one role. */
  function Entry(descriptions: map<string, string>, scripts: map<string, Script>, role: string): Profile {
    Profile(if role in descriptions then descriptions[role] else "",
            if role in scripts then Phrases(scripts[role]) else [])
  }

  /** The entries of one load, as a map. */
  function Table(descriptions: map<string, string>, scripts: map<string, Script>): map<string, Profile> {
    map role | role in descriptions.Keys + scripts.Keys :: Entry(descriptions, scripts, role)
  }

  /** Every role named in either file gets an entry, and no other role. A
      role without a description gets `""`; one without a script, or with
      an empty string as its script, gets no phrases; a single non-empty
      string becomes a one-element list; a list is kept as it is. */
  lemma TableEntries(descriptions: map<string, string>, scripts: map<string, Script>)
    ensures Table(descriptions, scripts).Keys == descriptions.Keys + scripts.Keys
    ensures forall role :: role in Table(descriptions, scripts) ==>
      && Table(descriptions, scripts)[role].desc == (if role in descriptions then descriptions[role] else "")
      && (role !in scripts ==> Table(descriptions, scripts)[role].catchphrases == [])
      && (role in scripts && scripts[role] == One("") ==> Table(descriptions, scripts)[role].catchphrases == [])
      && (role in scripts && scripts[role].One? && scripts[role].phrase != "" ==>
            Table(descriptions, scripts)[role].catchphrases == [scripts[role].phrase])
      && (role in scripts && scripts[role].Many? ==>
            Table(descriptions, scripts)[role].catchphrases == scripts[role].phrases)
  {
  }

  /** A single-string script never yields an empty phrase, and yields at
      most one. */
  lemma OneStringScript(p: string)
    ensures |Phrases(One(p))| <= 1
    ensures forall q :: q in Phrases(One(p)) ==> q != "" && q == p
  {
  }

  /** `ROLE_PROFILES.get(role, {})`, seen through `meta.get(...)`. */
  function Lookup(profiles: map<string, Profile>, role: string): Profile {
    if role in profiles then profiles[role] else Profile("", [])
  }

  /** Setting one more role's entry extends the merged table by that role. */
  lemma EntryAdded(base: map<string, Profile>, descriptions: map<string, string>, scripts: map<string, Script>,
                   done: set<string>, role: string)
    ensures (base + map r | r in done :: Entry(descriptions, scripts, r))[role := Entry(descriptions, scripts, role)] ==
            base + map r | r in done + {role} :: Entry(descriptions, scripts, r)
  {
  }

  /** The module-level `ROLE_PROFILES` dictionary. */
  class ProfileStore {
    var profiles: map<string, Profile>

    constructor ()
      ensures profiles == map[]
    {
      profiles := map[];
    }

    /** `load_profiles`: fails before touching the table when a file is
        missing; otherwise sets one entry per role of either file, keeping
        entries of other roles from earlier loads. */
    method Load(files: ProfileFiles) returns (r: Result<()>)
      modifies this
      ensures files.descriptions.None? ==> r == Err(DescriptionsMissing) && profiles == old(profiles)
      ensures files.descriptions.Some? && files.scripts.None? ==> r == Err(ScriptsMissing) && profiles == old(profiles)
      ensures Complete(files) ==> r == Ok(()) && profiles == old(profiles) + Loaded(files)
    {
      if files.descriptions.None? {
        return Err(DescriptionsMissing);
      }
      if files.scripts.None? {
        return Err(ScriptsMissing);
      }
      var descriptions := files.descriptions.value;
      var scripts := files.scripts.value;
      var allRoles := descriptions.Keys + scripts.Keys;
      var remaining := allRoles;
      ghost var done: set<string> := {};
      while remaining != {}
        invariant remaining + done == allRoles && remaining !! done
        invariant profiles == old(profiles) + map role | role in done :: Entry(descriptions, scripts, role)
        decreases remaining
      {
        var role :| role in remaining;
        var catchphrases := if role in scripts then scripts[role] else Many([]);
        var phrases := match catchphrases
          case One(p) => (if p != "" then [p] else [])
          case Many(ps) => ps;
        assert Profile(if role in descriptions then descriptions[role] else "", phrases) == Entry(descriptions, scripts, role);
        EntryAdded(old(profiles), descriptions, scripts, done, role);
        profiles := profiles[role := Profile(if role in descriptions then descriptions[role] else "", phrases)];
        remaining := remaining - {role};
        done := done + {role};
      }
      r := Ok(());
    }
  }
}
