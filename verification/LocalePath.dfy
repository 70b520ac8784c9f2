/** Locale prefixes of paths. */
module LocalePath {
  import opened Common

  predicate StartsWith(s: string, prefix: string) { prefix <= s }

  /** The leftmost occurrence of `pattern`. */
  function IndexOf(s: string, pattern: string): (i: Option<nat>)
    ensures i.Some? ==> i.value <= |s| && StartsWith(s[i.value..], pattern)
    ensures forall j :: 0 <= j <= |s| && (i.None? || j < i.value) ==> !StartsWith(s[j..], pattern)
  {
    if StartsWith(s, pattern) then
      assert s[0..] == s;
      Some(0)
    else if s == [] then
      assert s[0..] == s;
      None
    else
      var rest := IndexOf(s[1..], pattern);
      assert s[0..] == s;
      assert forall j :: 0 < j <= |s| ==> s[j..] == s[1..][j - 1..];
      if rest.None? then None else Some(rest.value + 1)
  }

  /** `replace` with a string pattern: the first occurrence only, wherever it is. */
  function RemoveFirst(s: string, pattern: string): string {
    var i := IndexOf(s, pattern);
    if i.None? then s else s[..i.value] + s[i.value + |pattern|..]
  }

  function Prefix(locale: string): string { "/" + locale }

  /** None where the code throws. */
  function LocalePath(path: string, locale: string): Option<string> {
    if StartsWith(path, "/") then Some(Prefix(locale) + path) else None
  }

  function StripLocale(path: string, locale: string): string {
    if path == Prefix(locale) then "/"
    else
      var stripped := RemoveFirst(path, Prefix(locale));
      if stripped == "" then "/" else stripped
  }

  lemma OccursFirst(s: string, pattern: string)
    requires StartsWith(s, pattern)
    ensures RemoveFirst(s, pattern) == s[|pattern|..]
  {
    assert s[0..] == s;
    assert IndexOf(s, pattern) == Some(0);
    assert s[..0] + s[|pattern|..] == s[|pattern|..];
  }

  /** Letters of the locale in front go, whatever comes behind them. */
  lemma FrontGoes(rest: string, locale: string)
    requires rest != ""
    ensures StripLocale(Prefix(locale) + rest, locale) == rest
  {
    var path := Prefix(locale) + rest;
    assert path[..|Prefix(locale)|] == Prefix(locale) && path[|Prefix(locale)|..] == rest;
    OccursFirst(path, Prefix(locale));
  }

  /** ROUND TRIP, for every path and every locale. */
  lemma StripsWhatWasAdded(path: string, locale: string)
    requires LocalePath(path, locale).Some?
    ensures StripLocale(LocalePath(path, locale).value, locale) == path
  {
    FrontGoes(path, locale);
  }

  /** What is left is never empty. */
  lemma NeverEmpty(path: string, locale: string)
    ensures StripLocale(path, locale) != ""
    ensures path == "" || path == Prefix(locale) ==> StripLocale(path, locale) == "/"
  {
    if path == "" { assert IndexOf(path, Prefix(locale)).None?; }
  }

  /** The other way round a path comes back exactly if it has the prefix as a whole segment with
      something behind it. */
  lemma AddsWhatWasStrippedIff(path: string, locale: string)
    requires StartsWith(path, "/")
    ensures LocalePath(StripLocale(path, locale), locale) == Some(path) <==> StartsWith(path, Prefix(locale) + "/")
  {
    var prefix := Prefix(locale);
    if StartsWith(path, prefix + "/") {
      var rest := path[|prefix|..];
      assert path == prefix + rest && rest[0] == (prefix + "/")[|prefix|] && StartsWith(rest, "/");
      StripsWhatWasAdded(rest, locale);
    }
    var stripped := StripLocale(path, locale);
    if LocalePath(stripped, locale) == Some(path) {
      assert path == prefix + stripped && stripped[0] == '/';
      assert path[..|prefix| + 1] == prefix + "/";
    }
  }

  /** What is left is no path any more exactly if the path goes on, after the letters of the locale, in
      the same segment (NoPathLeft). */
  lemma StaysAPathIff(path: string, locale: string)
    requires StartsWith(path, "/")
    ensures StartsWith(StripLocale(path, locale), "/")
        <==> !(StartsWith(path, Prefix(locale)) && |path| > |Prefix(locale)| && path[|Prefix(locale)|] != '/')
  {
    var prefix := Prefix(locale);
    if StartsWith(path, prefix) {
      OccursFirst(path, prefix);
    } else {
      assert path[0..] == path;
      assert IndexOf(path, prefix) != Some(0);
      assert RemoveFirst(path, prefix)[0] == '/';
    }
  }

  /** A path is left alone exactly if the letters of the prefix occur nowhere in it, not only not in
      front (OtherPathChanged). */
  lemma LeftAloneIff(path: string, locale: string)
    requires StartsWith(path, "/")
    ensures StripLocale(path, locale) == path <==> IndexOf(path, Prefix(locale)).None? || (locale == "" && path == "/")
  {
    var prefix := Prefix(locale);
    if IndexOf(path, prefix).Some? {
      var i := IndexOf(path, prefix).value;
      assert |path[i..]| >= |prefix|;
      assert |RemoveFirst(path, prefix)| == |path| - |prefix|;
    }
  }

  lemma FrontSpelled(rest: string)
    requires rest == "glish"
    ensures Prefix("en") + rest == "/english" && !StartsWith(rest, "/")
  {
    assert rest[0] == 'g';
  }

  /** "/english" is no page of locale "en", and what is left of it is no path. */
  lemma NoPathLeft()
    ensures StripLocale("/english", "en") == "glish" && !StartsWith("glish", "/")
  {
    FrontGoes("glish", "en");
    FrontSpelled("glish");
  }

  /** A later segment that begins with the letters of the locale loses them, slash and all. */
  lemma LaterSegment(head: string, locale: string, tail: string)
    requires |head| > 1 && head[0] == '/' && locale != "" && head[1] != locale[0] && '/' !in head[1..]
    ensures StripLocale(head + Prefix(locale) + tail, locale) == head + tail
  {
    var s, prefix := head + Prefix(locale) + tail, Prefix(locale);
    forall j | 0 <= j < |head| ensures !StartsWith(s[j..], prefix) {
      if j == 0 {
        assert s[j..][1] == head[1] && prefix[1] == locale[0];
      } else {
        assert s[j..][0] == head[1..][j - 1] && prefix[0] == '/';
      }
    }
    assert s[|head|..][..|prefix|] == prefix && s[|head| + |prefix|..] == tail && s[..|head|] == head;
    assert IndexOf(s, prefix) == Some(|head|);
  }

  lemma OneSegment(head: string)
    requires head == "/about"
    ensures |head| > 1 && head[0] == '/' && head[1] == 'a' && '/' !in head[1..]
  {
    assert head[1..] == "about";
  }

  lemma Spelled()
    ensures "/about" + Prefix("en") + "roll" == "/about/enroll" && "/about" + "roll" == "/aboutroll"
  {
  }

  /** "/about/enroll" is no page of locale "en" either. */
  lemma OtherPathChanged()
    ensures StripLocale("/about/enroll", "en") == "/aboutroll"
  {
    OneSegment("/about");
    LaterSegment("/about", "en", "roll");
    Spelled();
  }
}
