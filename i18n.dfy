/**
 * The client-side translator: the current language, the guarded language
 * switch, and the lookup `t(key, params)` that walks a dotted key through
 * the language's table segment by segment and then fills `{param}`
 * placeholders.
 */
module I18nModel {
  import opened Common
  import opened Translations

  /** The values a lookup can meet: a text or a table of further values. */
  datatype JsValue = JsStr(s: string) | JsObject(fields: map<string, JsValue>)

  /** JavaScript truthiness: only the empty string is falsy among these values. */
  predicate JsTruthy(v: JsValue) {
    !(v.JsStr? && v.s == "")
  }

  /** A flat table of texts as an object. */
  function ObjectOf(table: map<string, string>): (o: JsValue)
    ensures o.JsObject? && o.fields.Keys == table.Keys
    ensures forall k | k in table :: o.fields[k] == JsStr(table[k])
  {
    JsObject(map k | k in table :: JsStr(table[k]))
  }

  /** `this.translations`. */
  const TranslationTables: map<string, JsValue> := map["fr" := ObjectOf(FrTable), "en" := ObjectOf(EnTable)]

  const DefaultLanguage: string := "fr"

  // ---------------------------------------------------------------- key.split('.')

  /** `s.split(sep)`: the pieces between separators, empty ones included. */
  function Split(s: string, sep: char): (pieces: seq<string>)
    ensures |pieces| >= 1
    ensures forall p | p in pieces :: sep !in p
    ensures Join(pieces, sep) == s
  {
    if s == [] then [""]
    else
      var rest := Split(s[1..], sep);
      if s[0] == sep then [""] + rest
      else
        assert sep !in [s[0]] + rest[0];
        [[s[0]] + rest[0]] + rest[1..]
  }

  /** `pieces.join(sep)`, the partner of Split. */
  function Join(pieces: seq<string>, sep: char): string {
    if |pieces| <= 1 then (if pieces == [] then "" else pieces[0])
    else pieces[0] + [sep] + Join(pieces[1..], sep)
  }

  /** A string without the separator splits into itself alone. */
  lemma SplitNoSeparator(s: string, sep: char)
    requires sep !in s
    ensures Split(s, sep) == [s]
  {
    if s != [] {
      assert sep !in s[1..];
      SplitNoSeparator(s[1..], sep);
    }
  }

  /** A string holding the separator splits into at least two pieces. */
  lemma {:induction false} SplitWithSeparator(s: string, sep: char)
    requires sep in s
    ensures |Split(s, sep)| >= 2
  {
    if s[0] != sep {
      SplitWithSeparator(s[1..], sep);
    }
  }

  // ---------------------------------------------------------------- the walk

  /** `translation && translation[k]`: a truthy member of an object, if there is one; a string is taken to have no members. */
  function Member(v: JsValue, k: string): (r: Option<JsValue>)
    ensures r.Some? <==> v.JsObject? && k in v.fields && JsTruthy(v.fields[k])
    ensures r.Some? ==> r.value == v.fields[k]
  {
    if v.JsObject? && k in v.fields && JsTruthy(v.fields[k]) then Some(v.fields[k]) else None
  }

  /** The segment loop: None as soon as a segment is missing or falsy. */
  function Walk(start: Option<JsValue>, segments: seq<string>): Option<JsValue>
    decreases |segments|
  {
    if start.None? then None
    else if segments == [] then start
    else Walk(Member(start.value, segments[0]), segments[1..])
  }

  /** Walking from nothing yields nothing. */
  lemma WalkFromNothing(segments: seq<string>)
    ensures Walk(None, segments) == None
  {
  }

  /** A chain of single-member objects along the segments leads the walk to its end. */
  function Nest(segments: seq<string>, leaf: JsValue): JsValue {
    if segments == [] then leaf else JsObject(map[segments[0] := Nest(segments[1..], leaf)])
  }

  /** A walk along a nested table finds the text at its end: the layout the walk expects. */
  lemma {:induction false} WalkFindsNested(segments: seq<string>, text: string)
    requires text != ""
    ensures Walk(Some(Nest(segments, JsStr(text))), segments) == Some(JsStr(text))
  {
    if segments != [] {
      var inner := Nest(segments[1..], JsStr(text));
      assert JsTruthy(inner) by {
        if segments[1..] != [] {
          assert inner.JsObject?;
        }
      }
      assert Member(Nest(segments, JsStr(text)), segments[0]) == Some(inner);
      WalkFindsNested(segments[1..], text);
    }
  }

  // ---------------------------------------------------------------- placeholders

  /** `s` holds `pat` starting at position i. */
  predicate OccursAt(s: string, pat: string, i: nat) {
    i + |pat| <= |s| && s[i..i + |pat|] == pat
  }

  /** The first position at which `pat` occurs in `s`, if any. */
  function IndexOf(s: string, pat: string, from: nat := 0): (r: Option<nat>)
    requires from <= |s| + 1
    ensures r.None? ==> forall i: nat | from <= i :: !OccursAt(s, pat, i)
    ensures r.Some? ==> (
      && from <= r.value && OccursAt(s, pat, r.value)
      && forall i: nat | from <= i < r.value :: !OccursAt(s, pat, i))
    decreases |s| + 1 - from
  {
    if from + |pat| > |s| then None
    else if s[from..from + |pat|] == pat then Some(from)
    else IndexOf(s, pat, from + 1)
  }

  /** `s.replace(pat, rep)` with a string pattern: only the first occurrence is replaced. */
  function ReplaceFirst(s: string, pat: string, rep: string): (r: string)
    ensures (forall i: nat :: !OccursAt(s, pat, i)) ==> r == s
    ensures forall i: nat | FirstAt(s, pat, i) :: r == s[..i] + rep + s[i + |pat|..]
  {
    match IndexOf(s, pat)
    case None => s
    case Some(i) =>
      assert FirstAt(s, pat, i);
      assert forall k: nat | FirstAt(s, pat, k) :: k == i by {
        forall k: nat | FirstAt(s, pat, k) ensures k == i {
          FirstOccurrenceUnique(s, pat, i, k);
        }
      }
      s[..i] + rep + s[i + |pat|..]
  }

  /** `pat` occurs at i and nowhere before. */
  predicate FirstAt(s: string, pat: string, i: nat) {
    OccursAt(s, pat, i) && forall j: nat | j < i :: !OccursAt(s, pat, j)
  }

  /** There is only one first occurrence. */
  lemma FirstOccurrenceUnique(s: string, pat: string, i: nat, k: nat)
    requires FirstAt(s, pat, i) && FirstAt(s, pat, k)
    ensures i == k
  {
  }

  /** `{name}`. */
  function Placeholder(name: string): string {
    "{" + name + "}"
  }

  /** The placeholders filled one parameter at a time, in the order the parameters were given. */
  function Substitute(s: string, params: seq<(string, string)>): string {
    if params == [] then s
    else
      var last := params[|params| - 1];
      ReplaceFirst(Substitute(s, params[..|params| - 1]), Placeholder(last.0), last.1)
  }

  /** Without parameters, a text is returned as it is. */
  lemma SubstituteNothing(s: string)
    ensures Substitute(s, []) == s
  {
  }

  // ---------------------------------------------------------------- t(key, params)

  /**
   * What `t(key, params)` returns in language `lang` over the tables `tables`:
   * the key itself when the language has no table or the walk fails; otherwise
   * the value reached, with its placeholders filled when it is a text.
   */
  function Translate(tables: map<string, JsValue>, lang: string, key: string, params: seq<(string, string)>): JsValue {
    var start := if lang in tables then Some(tables[lang]) else None;
    match Walk(start, Split(key, '.'))
    case None => JsStr(key)
    case Some(JsStr(s)) => JsStr(Substitute(s, params))
    case Some(o) => o
  }

  /** A language without a table returns every key unchanged. */
  lemma UnknownLanguageKeepsKey(tables: map<string, JsValue>, lang: string, key: string, params: seq<(string, string)>)
    requires lang !in tables
    ensures Translate(tables, lang, key, params) == JsStr(key)
  {
    WalkFromNothing(Split(key, '.'));
  }

  /** Every table is a flat object of texts whose keys all hold a dot. */
  predicate FlatDotted(tables: map<string, JsValue>) {
    forall lang | lang in tables ::
      tables[lang].JsObject? && forall k | k in tables[lang].fields :: '.' in k && tables[lang].fields[k].JsStr?
  }

  /**
   * Over flat tables with dotted keys, the walk stops at the first segment,
   * which holds no dot and so names no entry: every dotted key comes back
   * unchanged, in every language, whatever the parameters.
   */
  lemma DottedKeysUntranslated(tables: map<string, JsValue>, lang: string, key: string, params: seq<(string, string)>)
    requires FlatDotted(tables)
    requires '.' in key
    ensures Translate(tables, lang, key, params) == JsStr(key)
  {
    var segments := Split(key, '.');
    SplitWithSeparator(key, '.');
    if lang in tables {
      var first := segments[0];
      assert '.' !in first;
      assert first !in tables[lang].fields;
      assert Member(tables[lang], first) == None;
    }
    WalkFromNothing(segments[1..]);
  }

  /** The shipped tables: French and English objects holding the texts of the flat tables. */
  lemma ShippedObjects()
    ensures TranslationTables.Keys == {"fr", "en"}
    ensures TranslationTables["fr"] == ObjectOf(FrTable) && TranslationTables["en"] == ObjectOf(EnTable)
    ensures TranslationTables["fr"].fields.Keys == FrTable.Keys && TranslationTables["en"].fields.Keys == EnTable.Keys
    ensures forall k | k in FrTable :: TranslationTables["fr"].fields[k] == JsStr(FrTable[k])
    ensures forall k | k in EnTable :: TranslationTables["en"].fields[k] == JsStr(EnTable[k])
  {
  }

  /** Both shipped tables are flat, with dotted keys only, and define the same keys. */
  lemma ShippedTranslationsFlat()
    ensures FlatDotted(TranslationTables)
    ensures TranslationTables["fr"].fields.Keys == FrTable.Keys == TranslationTables["en"].fields.Keys
  {
    ShippedTables();
    ShippedObjects();
    forall lang | lang in TranslationTables
      ensures TranslationTables[lang].JsObject?
      ensures forall k | k in TranslationTables[lang].fields :: '.' in k && TranslationTables[lang].fields[k].JsStr?
    {
      assert lang == "fr" || lang == "en";
    }
  }

  /** `t` returns every shipped key unchanged, in every language. */
  lemma ShippedKeysUntranslated(lang: string, key: string, params: seq<(string, string)>)
    requires key in FrTable
    ensures Translate(TranslationTables, lang, key, params) == JsStr(key)
  {
    ShippedTables();
    ShippedTranslationsFlat();
    DottedKeysUntranslated(TranslationTables, lang, key, params);
  }

  /**
   * Direct lookup of the whole key, the reading the flat tables are written
   * for: the key unchanged when the language or the key is missing or the
   * value is falsy, otherwise the value, with its placeholders filled when it
   * is a text.
   */
  function FlatTranslate(tables: map<string, JsValue>, lang: string, key: string, params: seq<(string, string)>): (r: JsValue)
    ensures lang !in tables ==> r == JsStr(key)
    ensures lang in tables && Member(tables[lang], key).None? ==> r == JsStr(key)
    ensures lang in tables && Member(tables[lang], key).Some? && !Member(tables[lang], key).value.JsStr? ==>
        r == Member(tables[lang], key).value
    ensures (lang in tables && tables[lang].JsObject? && key in tables[lang].fields
             && tables[lang].fields[key].JsStr? && tables[lang].fields[key].s != "") ==>
        r == JsStr(Substitute(tables[lang].fields[key].s, params))
  {
    match (if lang in tables then Member(tables[lang], key) else None)
    case None => JsStr(key)
    case Some(JsStr(s)) => JsStr(Substitute(s, params))
    case Some(o) => o
  }

  /** For a key without a dot the walk is a single step, so both readings agree. */
  lemma UndottedKeysAgree(tables: map<string, JsValue>, lang: string, key: string, params: seq<(string, string)>)
    requires '.' !in key
    ensures Translate(tables, lang, key, params) == FlatTranslate(tables, lang, key, params)
  {
    SplitNoSeparator(key, '.');
    if lang in tables {
      var segments := Split(key, '.');
      assert segments == [key];
      assert Walk(Some(tables[lang]), segments) == Walk(Member(tables[lang], key), []);
    } else {
      WalkFromNothing(Split(key, '.'));
    }
  }

  /** Direct lookup finds the French and the English text of every shipped key. */
  lemma FlatTranslateFindsShippedKeys(key: string)
    requires key in FrTable
    ensures key in EnTable
    ensures FlatTranslate(TranslationTables, "fr", key, []) == JsStr(FrTable[key])
    ensures FlatTranslate(TranslationTables, "en", key, []) == JsStr(EnTable[key])
  {
    ShippedTables();
    ShippedObjects();
  }

  // ---------------------------------------------------------------- the loops of t

  /** `for (const k of keys)`: None where the source returns the key. */
  method FollowSegments(start: Option<JsValue>, segments: seq<string>) returns (found: Option<JsValue>)
    ensures found == Walk(start, segments)
  {
    if start.None? {
      WalkFromNothing(segments);
      return None;
    }
    var translation := start.value;
    for i := 0 to |segments|
      invariant Walk(start, segments) == Walk(Some(translation), segments[i..])
    {
      var next := Member(translation, segments[i]);
      assert segments[i..][1..] == segments[i + 1..];
      if next.None? {
        WalkFromNothing(segments[i + 1..]);
        return None;
      }
      translation := next.value;
    }
    found := Some(translation);
  }

  /** `Object.keys(params).forEach(...)`: each placeholder replaced at its first occurrence. */
  method FillPlaceholders(text: string, params: seq<(string, string)>) returns (r: string)
    ensures r == Substitute(text, params)
  {
    r := text;
    for j := 0 to |params|
      invariant r == Substitute(text, params[..j])
    {
      assert params[..j + 1][..j] == params[..j];
      r := ReplaceFirst(r, Placeholder(params[j].0), params[j].1);
    }
    assert params[..|params|] == params;
  }

  // ---------------------------------------------------------------- the translator

  class I18n {
    /** `this.translations`. */
    const translations: map<string, JsValue>
    var currentLang: string

    /** The shipped tables; `localStorage.getItem(...) || 'fr'`: the stored language, unchecked, unless absent or empty. */
    constructor (stored: Option<string>)
      ensures translations == TranslationTables
      ensures currentLang == if stored.Some? && stored.value != "" then stored.value else DefaultLanguage
    {
      translations := TranslationTables;
      currentLang := if stored.Some? && stored.value != "" then stored.value else DefaultLanguage;
    }

    /** `setLanguage`: switches only to a language that has a table. */
    method SetLanguage(lang: string)
      modifies this
      ensures currentLang == if lang in translations then lang else old(currentLang)
    {
      if lang in translations {
        currentLang := lang;
      }
    }

    /** `t(key, params)`: the segment loop, then the placeholder loop. */
    method T(key: string, params: seq<(string, string)>) returns (r: JsValue)
      ensures r == Translate(translations, currentLang, key, params)
    {
      var start := if currentLang in translations then Some(translations[currentLang]) else None;
      var found := FollowSegments(start, Split(key, '.'));
      if found.None? {
        return JsStr(key);
      }
      r := found.value;
      if r.JsStr? {
        var text := FillPlaceholders(r.s, params);
        r := JsStr(text);
      }
    }
  }
}
