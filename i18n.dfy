/** Message lookup (src/i18n.js): a tree of messages per language, looked
    up by dotted key with a fallback to English, `{{name}}` placeholders
    filled from a substitution table, language selection and runtime
    additions to the tree.

    The tree is the parsed `messages.json`; objects are insertion-ordered
    lists of properties. */
module I18n {
  import opened Common
  import opened JsMap

  /** A JSON value as the lookup sees it: a string, an object, or any
      other value (number, boolean, null), of which only truthiness
      matters. */
  datatype Json = Str(s: string) | Obj(fields: seq<(string, Json)>) | Other(truthy: bool)

  const Fallback := "en"
  const RtlLanguages: seq<string> := ["ar", "he", "fa", "ur"]

  /** JavaScript truthiness of a property value, `None` being `undefined`. */
  predicate Truthy(v: Option<Json>) {
    match v
    case None => false
    case Some(Str(s)) => s != []
    case Some(Obj(_)) => true
    case Some(Other(t)) => t
  }

  // ---------------------------------------------------------------------
  // Walking a dotted path

  /** One step of the walk: `message && typeof message === 'object' && k in
      message ? message[k] : <fail>`. */
  function Step(m: Option<Json>, k: string): Option<Json> {
    if m.Some? && m.value.Obj? && Has(m.value.fields, k) then Get(m.value.fields, k) else None
  }

  /** The value at the end of `path`, or `None` if some step fails. */
  function Walk(start: Option<Json>, path: seq<string>): Option<Json> {
    if path == [] then start
    else Step(Walk(start, path[..|path| - 1]), path[|path| - 1])
  }

  lemma WalkStep(start: Option<Json>, path: seq<string>, i: nat)
    requires i < |path|
    ensures Walk(start, path[..i + 1]) == Step(Walk(start, path[..i]), path[i])
  {
    assert path[..i + 1][..i] == path[..i];
  }

  /** Walking from the front: the first step, then the rest. */
  lemma {:induction false} WalkCons(start: Option<Json>, k: string, rest: seq<string>)
    ensures Walk(start, [k] + rest) == Walk(Step(start, k), rest)
  {
    if rest != [] {
      var last := |rest| - 1;
      assert ([k] + rest)[..|rest|] == [k] + rest[..last];
      WalkCons(start, k, rest[..last]);
    }
  }

  /** A failed walk stays failed. */
  lemma {:induction false} WalkFailed(start: Option<Json>, path: seq<string>, i: nat)
    requires i <= |path| && Walk(start, path[..i]) == None
    ensures Walk(start, path) == None
    decreases |path| - i
  {
    if i < |path| {
      WalkStep(start, path, i);
      WalkFailed(start, path, i + 1);
    } else {
      assert path[..i] == path;
    }
  }

  /** Stepping into an object is `Map.get`. */
  lemma StepObj(f: seq<(string, Json)>, k: string)
    ensures Step(Some(Obj(f)), k) == Get(f, k)
  {
  }

  /** Nothing is found below a value that is not an object, nor below an
      empty object. */
  lemma NothingBelow(start: Option<Json>, path: seq<string>)
    requires path != []
    requires start.None? || !start.value.Obj? || start.value.fields == []
    ensures Walk(start, path) == None
  {
    WalkCons(start, path[0], path[1..]);
    assert [path[0]] + path[1..] == path;
    assert Step(start, path[0]) == None;
    WalkFailed(None, path[1..], 0);
  }

  // ---------------------------------------------------------------------
  // Placeholders

  /** `\w`: ASCII letters, digits and the underscore. */
  predicate IsWordChar(c: char) {
    ('a' <= c <= 'z') || ('A' <= c <= 'Z') || ('0' <= c <= '9') || c == '_'
  }

  /** Length of the run of word characters at the start of `t`. */
  function WordRun(t: string): (n: nat)
    ensures n <= |t|
    ensures forall i | 0 <= i < n :: IsWordChar(t[i])
    ensures n < |t| ==> !IsWordChar(t[n])
  {
    if t != [] && IsWordChar(t[0]) then 1 + WordRun(t[1..]) else 0
  }

  /** If `s` starts with a match of `\{\{(\w+)\}\}`, the length of the word.
      The word run is maximal and `}` is not a word character, so the
      greedy match is the only one. */
  function PlaceholderAt(s: string): (r: Option<nat>)
    ensures r.Some? ==> 0 < r.value && r.value + 4 <= |s|
  {
    if |s| >= 2 && s[0] == '{' && s[1] == '{' then
      var n := WordRun(s[2..]);
      if n > 0 && n + 4 <= |s| && s[n + 2] == '}' && s[n + 3] == '}' then Some(n) else None
    else None
  }

  /** `applySubstitutions`: one left-to-right pass; each placeholder whose
      name has a value is replaced by it, any other is kept, and replaced
      text is not scanned again. */
  function Subst(s: string, subs: map<string, string>): string
    decreases |s|
  {
    if s == [] then []
    else
      match PlaceholderAt(s)
      case Some(n) =>
        var name := s[2..n + 2];
        (if name in subs then subs[name] else s[..n + 4]) + Subst(s[n + 4..], subs)
      case None => [s[0]] + Subst(s[1..], subs)
  }

  /** With no substitutions the message comes back unchanged. */
  lemma {:induction false} SubstNothing(s: string)
    ensures Subst(s, map[]) == s
    decreases |s|
  {
    if s != [] {
      match PlaceholderAt(s)
      case Some(n) =>
        SubstNothing(s[n + 4..]);
        assert s[..n + 4] + s[n + 4..] == s;
      case None =>
        SubstNothing(s[1..]);
        assert [s[0]] + s[1..] == s;
    }
  }

  /** A message without `{` has nothing to substitute. */
  lemma {:induction false} SubstPlain(s: string, subs: map<string, string>)
    requires '{' !in s
    ensures Subst(s, subs) == s
    decreases |s|
  {
    if s != [] {
      assert s[0] != '{';
      assert '{' !in s[1..] by {
        forall i | 0 <= i < |s[1..]| ensures s[1..][i] != '{' {
          assert s[1..][i] == s[i + 1];
        }
      }
      SubstPlain(s[1..], subs);
      assert [s[0]] + s[1..] == s;
    }
  }

  lemma {:induction false} WordRunOf(name: string, rest: string)
    requires forall i | 0 <= i < |name| :: IsWordChar(name[i])
    requires rest == [] || !IsWordChar(rest[0])
    ensures WordRun(name + rest) == |name|
  {
    if name != [] {
      assert (name + rest)[1..] == name[1..] + rest;
      WordRunOf(name[1..], rest);
    }
  }

  /** A placeholder at the front is replaced by its value when the name has
      one and kept verbatim otherwise; scanning resumes after it. */
  lemma SubstPlaceholder(name: string, rest: string, subs: map<string, string>)
    requires name != [] && forall i | 0 <= i < |name| :: IsWordChar(name[i])
    ensures Subst("{{" + name + "}}" + rest, subs)
      == (if name in subs then subs[name] else "{{" + name + "}}") + Subst(rest, subs)
  {
    var s := "{{" + name + "}}" + rest;
    assert s[2..] == name + ("}}" + rest);
    WordRunOf(name, "}}" + rest);
    var n := |name|;
    assert s[n + 2] == '}' && s[n + 3] == '}';
    assert s[2..n + 2] == name;
    assert s[..n + 4] == "{{" + name + "}}";
    assert s[n + 4..] == rest;
  }

  /** Inserted text is not scanned again: a value that itself looks like a
      placeholder stays as it is. */
  lemma NotRescanned()
    ensures Subst("{{a}}", map["a" := "{{b}}", "b" := "x"]) == "{{b}}"
  {
    SubstPlaceholder("a", "", map["a" := "{{b}}", "b" := "x"]);
    assert "{{" + "a" + "}}" + "" == "{{a}}";
  }

  // ---------------------------------------------------------------------
  // Lookup

  /** The value `getMessage` settles on: the whole path in the current
      language, else the whole path from the English root. */
  function Found(messages: seq<(string, Json)>, current: string, keys: seq<string>): Option<Json> {
    var primary := Walk(Get(messages, current), keys);
    if primary.Some? then primary else Walk(Get(messages, Fallback), keys)
  }

  /** `getMessage`: the string found, with placeholders filled; the key
      itself when nothing is found or the value is not a string. */
  function Message(messages: seq<(string, Json)>, current: string, key: string, subs: map<string, string>): string {
    var found := Found(messages, current, Split(key, '.'));
    if found.Some? && found.value.Str? then Subst(found.value.s, subs) else key
  }

  // ---------------------------------------------------------------------
  // Adding a translation

  /** The object `obj` after `addTranslation`'s walk along `path` and the
      final assignment, or `None` when the walk meets a truthy value that
      is not an object (assigning to its property throws a `TypeError` in
      strict-mode class code).  Absent and falsy steps become new objects. */
  function Put(obj: seq<(string, Json)>, path: seq<string>, msg: Json): Option<seq<(string, Json)>>
    requires |path| >= 1
    decreases |path|
  {
    if |path| == 1 then Some(Set(obj, path[0], msg))
    else
      var child := Get(obj, path[0]);
      if Truthy(child) && !child.value.Obj? then None
      else
        var inner := if child.Some? && child.value.Obj? then child.value.fields else [];
        match Put(inner, path[1..], msg)
        case None => None
        case Some(f) => Some(Set(obj, path[0], Obj(f)))
  }

  /** A path that leaves `path` somewhere before either ends. */
  predicate Diverges(q: seq<string>, path: seq<string>) {
    |q| > 0 && |path| > 0 && (q[0] != path[0] || Diverges(q[1..], path[1..]))
  }

  /** After a successful put, the path leads to the message. */
  lemma {:induction false} PutThenWalk(obj: seq<(string, Json)>, path: seq<string>, msg: Json)
    requires |path| >= 1 && Put(obj, path, msg).Some?
    ensures Walk(Some(Obj(Put(obj, path, msg).value)), path) == Some(msg)
    decreases |path|
  {
    var r := Put(obj, path, msg).value;
    WalkCons(Some(Obj(r)), path[0], path[1..]);
    assert [path[0]] + path[1..] == path;
    if |path| == 1 {
      GetSet(obj, path[0], msg, path[0]);
    } else {
      var child := Get(obj, path[0]);
      var inner := if child.Some? && child.value.Obj? then child.value.fields else [];
      var f := Put(inner, path[1..], msg).value;
      GetSet(obj, path[0], Obj(f), path[0]);
      PutThenWalk(inner, path[1..], msg);
    }
  }

  /** A put leaves every path that diverges from it as it was. */
  lemma {:induction false} PutKeepsOthers(obj: seq<(string, Json)>, path: seq<string>, msg: Json, q: seq<string>)
    requires |path| >= 1 && Put(obj, path, msg).Some? && Diverges(q, path)
    ensures Walk(Some(Obj(Put(obj, path, msg).value)), q) == Walk(Some(Obj(obj)), q)
    decreases |path|
  {
    var r := Put(obj, path, msg).value;
    WalkCons(Some(Obj(r)), q[0], q[1..]);
    WalkCons(Some(Obj(obj)), q[0], q[1..]);
    assert [q[0]] + q[1..] == q;
    if q[0] != path[0] {
      if |path| == 1 {
        GetSet(obj, path[0], msg, q[0]);
      } else {
        var child := Get(obj, path[0]);
        var inner := if child.Some? && child.value.Obj? then child.value.fields else [];
        GetSet(obj, path[0], Obj(Put(inner, path[1..], msg).value), q[0]);
      }
    } else {
      var child := Get(obj, path[0]);
      var inner := if child.Some? && child.value.Obj? then child.value.fields else [];
      var f := Put(inner, path[1..], msg).value;
      GetSet(obj, path[0], Obj(f), path[0]);
      PutKeepsOthers(inner, path[1..], msg, q[1..]);
      if !(child.Some? && child.value.Obj?) {
        NothingBelow(Some(Obj([])), q[1..]);
        NothingBelow(child, q[1..]);
      }
    }
  }

  /** A put replaces one top-level entry with an object and keeps the
      others. */
  lemma PutTopLevel(obj: seq<(string, Json)>, path: seq<string>, msg: Json, k: string)
    requires |path| >= 2 && Put(obj, path, msg).Some?
    ensures var r := Put(obj, path, msg).value;
      && Get(r, path[0]).Some? && Get(r, path[0]).value.Obj?
      && (k != path[0] ==> Get(r, k) == Get(obj, k))
  {
    var child := Get(obj, path[0]);
    var inner := if child.Some? && child.value.Obj? then child.value.fields else [];
    var f := Put(inner, path[1..], msg).value;
    GetSet(obj, path[0], Obj(f), path[0]);
    GetSet(obj, path[0], Obj(f), k);
  }

  // ---------------------------------------------------------------------
  // Names

  const LanguageNames: seq<(string, string)> := [
    ("en", "English"), ("es", "Spanish"), ("fr", "French"), ("de", "German"),
    ("ja", "Japanese"), ("zh", "Chinese"), ("pt", "Portuguese")
  ]

  const NativeLanguageNames: seq<(string, string)> := [
    ("en", "English"), ("es", "Espa\U{F1}ol"), ("fr", "Fran\U{E7}ais"), ("de", "Deutsch"),
    ("ja", "\U{65E5}\U{672C}\U{8A9E}"), ("zh", "\U{4E2D}\U{6587}"), ("pt", "Portugu\U{EA}s")
  ]

  /** `names[code] || code`: every name in the tables is non-empty. */
  function NameIn(table: seq<(string, string)>, code: string): string {
    match Get(table, code)
    case Some(n) => if n != [] then n else code
    case None => code
  }

  /** `getLanguageName`: the English name of a known code, else the code. */
  function LanguageName(code: string): (name: string)
    ensures Has(LanguageNames, code) ==> name != code && name != []
    ensures !Has(LanguageNames, code) ==> name == code
  {
    NameIn(LanguageNames, code)
  }

  /** `getNativeLanguageName`: the name in the language itself, else the code. */
  function NativeLanguageName(code: string): (name: string)
    ensures Has(NativeLanguageNames, code) ==> name != code && name != []
    ensures !Has(NativeLanguageNames, code) ==> name == code
  {
    NameIn(NativeLanguageNames, code)
  }

  datatype LanguageInfo = LanguageInfo(code: string, name: string, nativeName: string, isRtl: bool)

  /** `getCurrentLanguageInfo`. */
  function CurrentLanguageInfo(current: string): (info: LanguageInfo)
    ensures info.code == current
    ensures info.isRtl <==> current == "ar" || current == "he" || current == "fa" || current == "ur"
    ensures info.name == current <==> !Has(LanguageNames, current)
    ensures info.nativeName == current <==> !Has(NativeLanguageNames, current)
  {
    RtlMembers(current);
    LanguageInfo(current, LanguageName(current), NativeLanguageName(current), current in RtlLanguages)
  }

  /** The right-to-left languages are Arabic, Hebrew, Persian and Urdu. */
  lemma RtlMembers(code: string)
    ensures code in RtlLanguages <==> code == "ar" || code == "he" || code == "fa" || code == "ur"
  {
    if code in RtlLanguages {
      var i :| 0 <= i < 4 && RtlLanguages[i] == code;
    }
  }

  // ---------------------------------------------------------------------
  // The translator

  /** The walk of `getMessage` from the English root: follow the keys
      while each step is present, and stop with nothing at the first that
      is not. */
  method WalkPath(root: Option<Json>, keys: seq<string>) returns (found: Option<Json>)
    ensures found == Walk(root, keys)
  {
    found := root;
    for j := 0 to |keys|
      invariant found == Walk(root, keys[..j])
    {
      WalkStep(root, keys, j);
      var k := keys[j];
      if found.Some? && found.value.Obj? && Has(found.value.fields, k) {
        found := Get(found.value.fields, k);
      } else {
        WalkFailed(root, keys, j + 1);
        return None;
      }
    }
    assert keys[..|keys|] == keys;
  }

  class Translator {
    var currentLanguage: string
    var messages: seq<(string, Json)>

    /** The current language is English or one with messages. */
    ghost predicate Valid()
      reads this
    {
      currentLanguage == Fallback || Truthy(Get(messages, currentLanguage))
    }

    constructor ()
      ensures Valid()
      ensures currentLanguage == Fallback && messages == []
    {
      currentLanguage := Fallback;
      messages := [];
    }

    /** `findSimilarLanguage`: the code itself if it has messages, else the
        first language, in key order, starting with the part before the
        first `-`. */
    method FindSimilarLanguage(browserLang: string) returns (r: Option<string>)
      ensures browserLang in Keys(messages) ==> r == Some(browserLang)
      ensures browserLang !in Keys(messages) ==>
        var family := Split(browserLang, '-')[0];
        && (r.None? <==> forall i | 0 <= i < |messages| :: !StartsWith(messages[i].0, family))
        && (r.Some? ==> exists i | 0 <= i < |messages| ::
              && messages[i].0 == r.value && StartsWith(r.value, family)
              && forall j | 0 <= j < i :: !StartsWith(messages[j].0, family))
    {
      var available := Keys(messages);
      if browserLang in available {
        return Some(browserLang);
      }
      var family := Split(browserLang, '-')[0];
      for i := 0 to |available|
        invariant forall j | 0 <= j < i :: !StartsWith(messages[j].0, family)
      {
        if StartsWith(available[i], family) {
          return Some(available[i]);
        }
      }
      return None;
    }

    /** The language choice of `setLanguage`: a code without messages falls
        back to English. */
    method SetLanguage(code: string)
      modifies this
      ensures currentLanguage == if Truthy(Get(messages, code)) then code else Fallback
      ensures messages == old(messages)
      ensures Valid()
    {
      var chosen := code;
      if !Truthy(Get(messages, chosen)) {
        chosen := Fallback;
      }
      currentLanguage := chosen;
    }

    /** `getMessage`: walk the dotted key in the current language; at the
        first missing step walk it again from the English root; return the
        string found with placeholders filled, or else the key. */
    method GetMessage(key: string, subs: map<string, string>) returns (text: string)
      ensures text == Message(messages, currentLanguage, key, subs)
    {
      var keys := Split(key, '.');
      var start := Get(messages, currentLanguage);
      var message := start;
      for i := 0 to |keys|
        invariant message == Walk(start, keys[..i])
        invariant i > 0 ==> message.Some?
      {
        WalkStep(start, keys, i);
        var k := keys[i];
        if message.Some? && message.value.Obj? && Has(message.value.fields, k) {
          message := Get(message.value.fields, k);
        } else {
          WalkFailed(start, keys, i + 1);
          message := WalkPath(Get(messages, Fallback), keys);
          break;
        }
      }
      assert keys[..|keys|] == keys;
      assert message == Found(messages, currentLanguage, keys);
      if message.Some? && message.value.Str? {
        text := Subst(message.value.s, subs);
      } else {
        text := key;
      }
    }

    /** `addTranslation`: store `msg` under `language` and the dotted key,
        creating objects for absent or falsy steps.  When a step is a
        truthy non-object the assignment throws and nothing has changed. */
    method AddTranslation(language: string, key: string, msg: string) returns (ok: bool)
      requires Valid()
      modifies this
      ensures Valid()
      ensures var r := Put(old(messages), [language] + Split(key, '.'), Str(msg));
        && ok == r.Some?
        && messages == if ok then r.value else old(messages)
      ensures currentLanguage == old(currentLanguage)
    {
      var path := [language] + Split(key, '.');
      var r := Put(messages, path, Str(msg));
      if r.None? {
        return false;
      }
      PutTopLevel(messages, path, Str(msg), currentLanguage);
      messages := r.value;
      return true;
    }
  }

  /** Round trip: once `addTranslation` succeeds for the current language,
      `getMessage` of the same key without substitutions returns the
      message. */
  lemma AddThenGet(messages: seq<(string, Json)>, language: string, key: string, msg: string)
    requires Put(messages, [language] + Split(key, '.'), Str(msg)).Some?
    ensures Message(Put(messages, [language] + Split(key, '.'), Str(msg)).value, language, key, map[]) == msg
  {
    var keys := Split(key, '.');
    var r := Put(messages, [language] + keys, Str(msg)).value;
    PutThenWalk(messages, [language] + keys, Str(msg));
    WalkCons(Some(Obj(r)), language, keys);
    SubstNothing(msg);
  }

  /** `addTranslation` leaves other languages, and keys that part from the
      new one, as they were. */
  lemma AddKeepsOthers(messages: seq<(string, Json)>, language: string, key: string, msg: string,
                       other: string, keys: seq<string>)
    requires Put(messages, [language] + Split(key, '.'), Str(msg)).Some?
    requires other != language || Diverges(keys, Split(key, '.'))
    ensures var r := Put(messages, [language] + Split(key, '.'), Str(msg)).value;
      Walk(Get(r, other), keys) == Walk(Get(messages, other), keys)
  {
    var path := [language] + Split(key, '.');
    var r := Put(messages, path, Str(msg)).value;
    assert Diverges([other] + keys, path) by {
      assert ([other] + keys)[1..] == keys;
      assert path[1..] == Split(key, '.');
    }
    PutKeepsOthers(messages, path, Str(msg), [other] + keys);
    WalkCons(Some(Obj(r)), other, keys);
    WalkCons(Some(Obj(messages)), other, keys);
  }
}
