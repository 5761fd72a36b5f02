/** The translation context: the choice of the initial language, the
    dotted-path lookup `t` into the nested translation object with `{{name}}`
    substitution, and the right-to-left flag. */
module I18n {
  import opened Common

  datatype Language = En | Es | Fr | De | It | Pt | Ja | Ko | Zh | Ar

  /** The language's code as stored and as used in the locale file name. */
  function Code(l: Language): string
  {
    match l
    case En => "en" case Es => "es" case Fr => "fr" case De => "de" case It => "it"
    case Pt => "pt" case Ja => "ja" case Ko => "ko" case Zh => "zh" case Ar => "ar"
  }

  /** `SUPPORTED_LANGUAGES.some(lang => lang.code === code)`, returning the
      language found. */
  function FromCode(code: string): Option<Language>
  {
    if code == "en" then Some(En) else if code == "es" then Some(Es)
    else if code == "fr" then Some(Fr) else if code == "de" then Some(De)
    else if code == "it" then Some(It) else if code == "pt" then Some(Pt)
    else if code == "ja" then Some(Ja) else if code == "ko" then Some(Ko)
    else if code == "zh" then Some(Zh) else if code == "ar" then Some(Ar)
    else None
  }

  /** A code is supported exactly when it is some language's code, and then
      it names that language. */
  lemma CodeRoundTrip(l: Language, code: string)
    ensures FromCode(Code(l)) == Some(l)
    ensures FromCode(code) == Some(l) <==> code == Code(l)
  {
    match l
    case En => case Es => case Fr => case De => case It =>
    case Pt => case Ja => case Ko => case Zh => case Ar =>
  }

  // ---------------------------------------------------------------------
  // Splitting

  /** `s.split(sep)` for a one-character separator: never empty; two
      separators in a row give an empty segment. */
  function Split(s: string, sep: char): (r: seq<string>)
    ensures |r| >= 1
    ensures forall i :: 0 <= i < |r| ==> sep !in r[i]
  {
    if s == [] then [[]]
    else
      var rest := Split(s[1..], sep);
      if s[0] == sep then [[]] + rest else [[s[0]] + rest[0]] + rest[1..]
  }

  /** `parts.join(sep)`. */
  function JoinWith(parts: seq<string>, sep: char): string
    requires |parts| >= 1
  {
    if |parts| == 1 then parts[0] else parts[0] + [sep] + JoinWith(parts[1..], sep)
  }

  /** Joining the segments with the separator gives back the string. */
  lemma {:induction false} SplitJoin(s: string, sep: char)
    ensures JoinWith(Split(s, sep), sep) == s
  {
    if s != [] {
      var rest := Split(s[1..], sep);
      SplitJoin(s[1..], sep);
      if s[0] != sep {
        var r := Split(s, sep);
        if |rest| == 1 {
          assert r == [[s[0]] + rest[0]];
        } else {
          assert r[1..] == rest[1..];
          assert JoinWith(r, sep) == [s[0]] + rest[0] + [sep] + JoinWith(rest[1..], sep);
        }
      }
    }
  }

  /** A string without the separator is a single segment. */
  lemma {:induction false} SplitWithoutSeparator(s: string, sep: char)
    requires sep !in s
    ensures Split(s, sep) == [s]
  {
    if s != [] {
      assert s[0] != sep && sep !in s[1..];
      SplitWithoutSeparator(s[1..], sep);
      assert [s[0]] + s[1..] == s;
    }
  }

  // ---------------------------------------------------------------------
  // The initial language

  /** `navigator.language.split('-')[0]`: the primary language subtag. */
  function PrimarySubtag(tag: string): string
  {
    Split(tag, '-')[0]
  }

  /** The primary subtag is the longest prefix of the tag without a hyphen. */
  lemma {:induction false} PrimarySubtagIsPrefix(tag: string)
    ensures StartsWith(tag, PrimarySubtag(tag))
    ensures '-' !in PrimarySubtag(tag)
    ensures |PrimarySubtag(tag)| == |tag| || tag[|PrimarySubtag(tag)|] == '-'
  {
    if tag != [] && tag[0] != '-' {
      PrimarySubtagIsPrefix(tag[1..]);
      assert PrimarySubtag(tag) == [tag[0]] + PrimarySubtag(tag[1..]);
    }
  }

  /** The lazy initial state: a stored, supported preference; else the
      browser's primary subtag when supported; else English. `saved` is
      `None` when nothing is stored. Any language other than English comes
      from one of the first two. */
  function InitialLanguage(saved: Option<string>, browserTag: string): (l: Language)
    ensures l == En || (saved.Some? && FromCode(saved.value) == Some(l)) || FromCode(PrimarySubtag(browserTag)) == Some(l)
  {
    if saved.Some? && saved.value != "" && FromCode(saved.value).Some? then FromCode(saved.value).value
    else if FromCode(PrimarySubtag(browserTag)).Some? then FromCode(PrimarySubtag(browserTag)).value
    else En
  }

  /** The three sources of the initial language, in priority order. */
  lemma InitialLanguageChoice(saved: Option<string>, browserTag: string)
    ensures forall l :: saved == Some(Code(l)) ==> InitialLanguage(saved, browserTag) == l
    ensures (saved.None? || FromCode(saved.value).None?) ==>
      forall l :: PrimarySubtag(browserTag) == Code(l) ==> InitialLanguage(saved, browserTag) == l
    ensures (saved.None? || FromCode(saved.value).None?) && FromCode(PrimarySubtag(browserTag)).None? ==>
      InitialLanguage(saved, browserTag) == En
  {
    forall l | saved == Some(Code(l))
      ensures InitialLanguage(saved, browserTag) == l
    {
      CodeRoundTrip(l, Code(l));
    }
    forall l | PrimarySubtag(browserTag) == Code(l)
      ensures (saved.None? || FromCode(saved.value).None?) ==> InitialLanguage(saved, browserTag) == l
    {
      CodeRoundTrip(l, Code(l));
    }
  }

  /** `language === 'ar'`. */
  function IsRTL(l: Language): (rtl: bool)
    ensures rtl <==> Code(l) == "ar"
  {
    l == Ar
  }

  // ---------------------------------------------------------------------
  // Lookup

  /** A parsed translation file: strings, nested objects, and everything else
      (numbers, booleans, null, arrays), which the lookup treats alike. */
  datatype Json = JString(text: string) | JObject(fields: map<string, Json>) | JOther

  /** Descend one field per segment; `None` when a segment is missing or the
      current value is not an object. */
  function Resolve(value: Json, segments: seq<string>): (r: Option<Json>)
    ensures segments == [] ==> r == Some(value)
    ensures segments != [] && r.Some? ==> value.JObject? && segments[0] in value.fields
    ensures segments != [] && !value.JObject? ==> r.None?
  {
    if segments == [] then Some(value)
    else if value.JObject? && segments[0] in value.fields then Resolve(value.fields[segments[0]], segments[1..])
    else None
  }

  /** Resolving a path is resolving its first part, then the rest. */
  lemma {:induction false} ResolveConcat(value: Json, a: seq<string>, b: seq<string>)
    ensures Resolve(value, a + b) == (match Resolve(value, a) case None => None case Some(w) => Resolve(w, b))
  {
    if a == [] {
      assert a + b == b;
    } else {
      assert (a + b)[0] == a[0] && (a + b)[1..] == a[1..] + b;
      if value.JObject? && a[0] in value.fields {
        ResolveConcat(value.fields[a[0]], a[1..], b);
      }
    }
  }

  /** A key without a dot is one field of the top-level object. */
  lemma TopLevelKey(translations: Json, key: string)
    requires '.' !in key
    ensures Resolve(translations, Split(key, '.')) ==
      if translations.JObject? && key in translations.fields then Some(translations.fields[key]) else None
  {
    SplitWithoutSeparator(key, '.');
  }

  // ---------------------------------------------------------------------
  // Substitution

  function Placeholder(name: string): (p: string)
    ensures |p| == |name| + 4 && p[..2] == "{{"
  {
    "{{" + name + "}}"
  }

  /** `s.replace(new RegExp(pattern, 'g'), replacement)` for a pattern that
      is a literal: matches are taken left to right and do not overlap. */
  function ReplaceAll(s: string, pattern: string, replacement: string): string
    requires pattern != []
    decreases |s|
  {
    if |s| < |pattern| then s
    else if s[..|pattern|] == pattern then replacement + ReplaceAll(s[|pattern|..], pattern, replacement)
    else [s[0]] + ReplaceAll(s[1..], pattern, replacement)
  }

  /** A string in which the pattern does not occur is left as it is. */
  lemma {:induction false} ReplaceAbsent(s: string, pattern: string, replacement: string)
    requires pattern != [] && !Contains(s, pattern)
    ensures ReplaceAll(s, pattern, replacement) == s
  {
    if |s| >= |pattern| {
      assert !OccursAt(s, pattern, 0);
      if Contains(s[1..], pattern) {
        var i :| 0 <= i <= |s[1..]| - |pattern| && OccursAt(s[1..], pattern, i);
        assert s[i + 1..i + 1 + |pattern|] == s[1..][i..i + |pattern|];
        assert OccursAt(s, pattern, i + 1);
      }
      ReplaceAbsent(s[1..], pattern, replacement);
    }
  }

  /** Replacing the pattern by itself changes nothing. */
  lemma {:induction false} ReplaceBySelf(s: string, pattern: string)
    requires pattern != []
    ensures ReplaceAll(s, pattern, pattern) == s
  {
    if |s| >= |pattern| {
      if s[..|pattern|] == pattern {
        ReplaceBySelf(s[|pattern|..], pattern);
        assert s == s[..|pattern|] + s[|pattern|..];
      } else {
        ReplaceBySelf(s[1..], pattern);
      }
    }
  }

  /** Text in front of the pattern that holds none of its first character
      is kept, and the pattern becomes the replacement; in particular a text
      that is exactly the placeholder becomes the value. */
  lemma {:induction false} ReplaceAfterPlainText(before: string, pattern: string, replacement: string)
    requires pattern != []
    requires forall i :: 0 <= i < |before| ==> before[i] != pattern[0]
    ensures ReplaceAll(before + pattern, pattern, replacement) == before + replacement
  {
    var s := before + pattern;
    if before == [] {
      assert s == pattern;
      assert s[..|pattern|] == pattern && s[|pattern|..] == [];
    } else {
      var c, rest := before[0], before[1..];
      assert s[0] == c != pattern[0];
      assert s[..|pattern|] != pattern;
      assert s[1..] == rest + pattern;
      assert ReplaceAll(s, pattern, replacement) == [c] + ReplaceAll(rest + pattern, pattern, replacement);
      ReplaceAfterPlainText(rest, pattern, replacement);
      assert before + replacement == [c] + (rest + replacement);
    }
  }

  /** The `reduce` over `Object.entries(params)`: each parameter in turn
      replaces every `{{name}}` by its string form. */
  function ApplyParams(s: string, params: seq<(string, string)>): string
    decreases |params|
  {
    if params == [] then s
    else ApplyParams(ReplaceAll(s, Placeholder(params[0].0), params[0].1), params[1..])
  }

  /** A text with no `{{` comes back unchanged whatever the parameters. */
  lemma {:induction false} NoPlaceholderUnchanged(s: string, params: seq<(string, string)>)
    requires !Contains(s, "{{")
    ensures ApplyParams(s, params) == s
  {
    if params != [] {
      var p := Placeholder(params[0].0);
      if Contains(s, p) {
        var i :| 0 <= i <= |s| - |p| && OccursAt(s, p, i);
        assert s[i..i + 2] == s[i..i + |p|][..2];
        assert OccursAt(s, "{{", i);
      }
      ReplaceAbsent(s, p, params[0].1);
      NoPlaceholderUnchanged(s, params[1..]);
    }
  }

  /** `t(key, params)` against a translation object: the key itself when the
      path is missing or ends on something other than a string. */
  method Translate(translations: Json, key: string, params: Option<seq<(string, string)>>) returns (r: string)
    ensures Resolve(translations, Split(key, '.')).None? ==> r == key
    ensures Resolve(translations, Split(key, '.')).Some? && !Resolve(translations, Split(key, '.')).value.JString? ==> r == key
    ensures Resolve(translations, Split(key, '.')).Some? && Resolve(translations, Split(key, '.')).value.JString? ==>
      var text := Resolve(translations, Split(key, '.')).value.text;
      r == if params.Some? then ApplyParams(text, params.value) else text
  {
    var keys := Split(key, '.');
    var value := translations;
    var i := 0;
    while i < |keys|
      invariant 0 <= i <= |keys|
      invariant Resolve(translations, keys) == Resolve(value, keys[i..])
    {
      if value.JObject? && keys[i] in value.fields {
        value := value.fields[keys[i]];
      } else {
        return key;
      }
      i := i + 1;
    }
    if !value.JString? {
      return key;
    }
    if params.Some? {
      r := ApplyParams(value.text, params.value);
    } else {
      r := value.text;
    }
  }

  // ---------------------------------------------------------------------
  // The provider's state

  class I18nProvider {
    var language: Language
    var translations: Json

    /** The provider starts in the chosen language with no translations
        loaded. */
    constructor(saved: Option<string>, browserTag: string)
      ensures language == InitialLanguage(saved, browserTag)
      ensures translations == JObject(map[])
    {
      language := InitialLanguage(saved, browserTag);
      translations := JObject(map[]);
    }

    method SetLanguage(l: Language)
      modifies this
      ensures language == l && translations == old(translations)
    {
      language := l;
    }

    /** The locale file arrived (or the fallback to English, or `{}`). */
    method SetTranslations(loaded: Json)
      modifies this
      ensures translations == loaded && language == old(language)
    {
      translations := loaded;
    }

    /** `t` before any file has arrived returns every key as it is. */
    method T(key: string, params: Option<seq<(string, string)>>) returns (r: string)
      ensures translations == JObject(map[]) ==> r == key
      ensures Resolve(translations, Split(key, '.')).None? ==> r == key
      ensures Resolve(translations, Split(key, '.')).Some? && !Resolve(translations, Split(key, '.')).value.JString? ==> r == key
      ensures Resolve(translations, Split(key, '.')).Some? && Resolve(translations, Split(key, '.')).value.JString? ==>
        var text := Resolve(translations, Split(key, '.')).value.text;
        r == if params.Some? then ApplyParams(text, params.value) else text
    {
      r := Translate(translations, key, params);
    }
  }
}
