/**
 * Whether the database connection is configured: both the project URL and
 * the anonymous key are set, non-empty and free of the word "placeholder".
 * The environment is not modelled: the two variables are parameters,
 * `None` when unset.
 */
module Config {
  import opened Wrappers
  import Text

  const Placeholder := "placeholder"

  /** Set and non-empty, and not mentioning the placeholder anywhere. */
  predicate Usable(s: Option<string>) {
    s.Some? && s.value != "" && !Text.Contains(s.value, Placeholder)
  }

  /** "Not mentioning the placeholder" is: it occurs at no position. */
  lemma UsableMeansNoOccurrence(s: Option<string>)
    ensures Usable(s) <==> s.Some? && s.value != "" && forall i :: !Text.OccursAt(s.value, Placeholder, i)
  {
    if s.Some? {
      Text.ContainsAt(s.value, Placeholder);
    }
  }

  /** `isSupabaseConfigured`. */
  function IsSupabaseConfigured(url: Option<string>, key: Option<string>): (configured: bool)
    ensures configured <==>
      && url.Some? && url.value != "" && (forall i :: !Text.OccursAt(url.value, Placeholder, i))
      && key.Some? && key.value != "" && (forall i :: !Text.OccursAt(key.value, Placeholder, i))
  {
    UsableMeansNoOccurrence(url);
    UsableMeansNoOccurrence(key);
    Usable(url) && Usable(key)
  }

  /** An unset or empty variable leaves the app unconfigured. */
  lemma MissingVariableNotConfigured(url: Option<string>, key: Option<string>)
    requires url.None? || key.None? || url == Some("") || key == Some("")
    ensures !IsSupabaseConfigured(url, key)
  {
  }

  /** The placeholder anywhere in either value leaves the app unconfigured. */
  lemma PlaceholderNotConfigured(url: Option<string>, key: Option<string>, i: int)
    requires url.Some? && Text.OccursAt(url.value, Placeholder, i)
    ensures !IsSupabaseConfigured(url, key)
    ensures !IsSupabaseConfigured(key, url)
  {
  }

  /** A key too short to hold the placeholder never trips the check. */
  lemma ShortValueHasNoPlaceholder(s: string)
    requires |s| < |Placeholder|
    ensures s != "" ==> Usable(Some(s))
  {
    Text.ContainsTooShort(s, Placeholder);
  }
}

/** The home page repeats the configuration test inline before building its client. */
module HomePage {
  import opened Wrappers
  import Text
  import Config

  /** The condition of the home page's first `if`. */
  predicate ShowsApp(supabaseUrl: Option<string>, supabaseKey: Option<string>) {
    supabaseUrl.Some? && supabaseUrl.value != "" && supabaseKey.Some? && supabaseKey.value != ""
    && !Text.Contains(supabaseUrl.value, Config.Placeholder) && !Text.Contains(supabaseKey.value, Config.Placeholder)
  }

  /** The inline test and `isSupabaseConfigured` agree on every pair of values. */
  lemma SameAsConfigCheck(supabaseUrl: Option<string>, supabaseKey: Option<string>)
    ensures ShowsApp(supabaseUrl, supabaseKey) == Config.IsSupabaseConfigured(supabaseUrl, supabaseKey)
  {
  }
}
