/**
 * The persona registry of `src/persona/persona_engine.py`: persona profiles, their dictionary
 * form (the YAML/JSON file layout), and the engine that keeps the profiles by lower-cased name
 * and one of them active.
 *
 * Reading and writing the files is not modelled: a file comes in as the dictionary it holds.
 * `random.choice` becomes an index supplied by the caller.
 */
module Persona {
  import opened Wrappers
  import opened Strings
  import opened Values
  import Events

  datatype PersonaConfig = PersonaConfig(
    name: string,
    version: string,
    description: string,
    author: string,
    tags: seq<string>,
    systemPrompt: string,
    temperature: real,
    topP: real,
    maxTokens: int,
    useEmojis: bool,
    emojiFrequency: real,
    casualLanguage: bool,
    greetings: seq<string>,
    farewells: seq<string>,
    emotionMap: map<string, string>)

  const DefaultGreetings: seq<string> := ["Hello!", "Hi there!"]
  const DefaultFarewells: seq<string> := ["Goodbye!", "See you later!"]

  /**
   * The dataclass constructor followed by `__post_init__`: a list or mapping field given as
   * `None` takes its default; anything else, the empty list included, is kept.
   */
  function NewPersona(name: string, version: string, description: string, author: string,
                      tags: Option<seq<string>>, systemPrompt: string, temperature: real, topP: real,
                      maxTokens: int, useEmojis: bool, emojiFrequency: real, casualLanguage: bool,
                      greetings: Option<seq<string>>, farewells: Option<seq<string>>,
                      emotionMap: Option<map<string, string>>): (p: PersonaConfig)
    ensures p.name == name && p.version == version && p.description == description && p.author == author
    ensures p.systemPrompt == systemPrompt && p.temperature == temperature && p.topP == topP
    ensures p.maxTokens == maxTokens && p.useEmojis == useEmojis && p.emojiFrequency == emojiFrequency
    ensures p.casualLanguage == casualLanguage
    ensures p.tags == (if tags.None? then [] else tags.value)
    ensures p.greetings == (if greetings.None? then DefaultGreetings else greetings.value)
    ensures p.farewells == (if farewells.None? then DefaultFarewells else farewells.value)
    ensures p.emotionMap == (if emotionMap.None? then map[] else emotionMap.value)
  {
    PersonaConfig(name, version, description, author, tags.GetOr([]), systemPrompt, temperature, topP,
                  maxTokens, useEmojis, emojiFrequency, casualLanguage,
                  greetings.GetOr(DefaultGreetings), farewells.GetOr(DefaultFarewells), emotionMap.GetOr(map[]))
  }

  /** The dataclass with only the three required fields given: every other field at its declared default. */
  function Minimal(name: string, version: string, description: string): (p: PersonaConfig)
    ensures p.name == name && p.version == version && p.description == description
    ensures p.systemPrompt == "You are a friendly AI assistant."
    ensures p.greetings == DefaultGreetings && p.farewells == DefaultFarewells
  {
    NewPersona(name, version, description, "Unknown", None, "You are a friendly AI assistant.", 0.7, 0.9,
               200, false, 0.0, false, None, None, None)
  }

  // Typed reads of one key, as `d.get(key, default)` followed by the dataclass field's type:
  // `None` when the stored value has another type.

  function ReadStr(d: map<string, Value>, key: string, default: string): (r: Option<string>)
    ensures key !in d ==> r == Some(default)
    ensures key in d ==> (r.Some? <==> d[key].Str?) && (r.Some? ==> r.value == d[key].s)
  {
    match Get(d, key, Str(default))
    case Str(s) => Some(s)
    case _ => None
  }

  /** A float field: a YAML/JSON integer is accepted as the same number. */
  function ReadReal(d: map<string, Value>, key: string, default: real): (r: Option<real>)
    ensures key !in d ==> r == Some(default)
    ensures key in d && d[key].Real? ==> r == Some(d[key].r)
    ensures key in d && d[key].Int? ==> r == Some(d[key].i as real)
    ensures key in d && !d[key].Real? && !d[key].Int? ==> r.None?
  {
    match Get(d, key, Real(default))
    case Real(x) => Some(x)
    case Int(i) => Some(i as real)
    case _ => None
  }

  function ReadInt(d: map<string, Value>, key: string, default: int): (r: Option<int>)
    ensures key !in d ==> r == Some(default)
    ensures key in d ==> (r.Some? <==> d[key].Int?) && (r.Some? ==> r.value == d[key].i)
  {
    match Get(d, key, Int(default))
    case Int(i) => Some(i)
    case _ => None
  }

  function ReadBool(d: map<string, Value>, key: string, default: bool): (r: Option<bool>)
    ensures key !in d ==> r == Some(default)
    ensures key in d ==> (r.Some? <==> d[key].Bool?) && (r.Some? ==> r.value == d[key].b)
  {
    match Get(d, key, Bool(default))
    case Bool(b) => Some(b)
    case _ => None
  }

  /**
   * A list-of-strings field: `Some(None)` for an explicit `null`, which `__post_init__` then
   * replaces by its own default; `None` when the value is neither a list of strings nor `null`.
   */
  function ReadStrList(d: map<string, Value>, key: string, default: seq<string>): (r: Option<Option<seq<string>>>)
    ensures key !in d ==> r == Some(Some(default))
    ensures key in d && d[key].Null? ==> r == Some(None)
  {
    if key !in d then Some(Some(default))
    else
      match d[key]
      case Null => Some(None)
      case List(items) =>
        (match AsStrings(items)
         case Some(ss) => Some(Some(ss))
         case None => None)
      case _ => None
  }

  /** The emotion mapping: `Some(None)` for an explicit `null`, as for lists. */
  function ReadStrMap(d: map<string, Value>, key: string): (r: Option<Option<map<string, string>>>)
    ensures key !in d ==> r == Some(Some(map[]))
    ensures key in d && d[key].Null? ==> r == Some(None)
  {
    if key !in d then Some(Some(map[]))
    else
      match d[key]
      case Null => Some(None)
      case Dict(entries) =>
        (match AsStrMap(entries)
         case Some(m) => Some(Some(m))
         case None => None)
      case _ => None
  }

  /** A nested section (`llm_config`, `behavior`): absent means `{}`; any non-dictionary fails. */
  function Section(d: map<string, Value>, key: string): (r: Option<map<string, Value>>)
    ensures key !in d ==> r == Some(map[])
    ensures key in d ==> (r.Some? <==> d[key].Dict?) && (r.Some? ==> r.value == d[key].entries)
  {
    match Get(d, key, Dict(map[]))
    case Dict(entries) => Some(entries)
    case _ => None
  }

  /**
   * `PersonaConfig.from_dict`: each key with the defaults of this reader, which are not all the
   * dataclass's (`system_prompt` defaults to `""`, greetings to `["Hello!"]`, farewells to
   * `["Goodbye!"]`). `None` when a section or a field has the wrong type.
   */
  function FromDict(data: map<string, Value>): (r: Option<PersonaConfig>)
    ensures Section(data, "llm_config").None? || Section(data, "behavior").None? ==> r.None?
    ensures r.Some? && "name" in data ==> data["name"] == Str(r.value.name)
    ensures r.Some? && "name" !in data ==> r.value.name == "Unknown"
    ensures r.Some? && "system_prompt" in Section(data, "llm_config").value
            ==> Section(data, "llm_config").value["system_prompt"] == Str(r.value.systemPrompt)
    ensures r.Some? && "system_prompt" !in Section(data, "llm_config").value ==> r.value.systemPrompt == ""
  {
    var llm := Section(data, "llm_config");
    var behavior := Section(data, "behavior");
    if llm.None? || behavior.None? then None
    else FromSections(data, llm.value, behavior.value)
  }

  /** `from_dict` once both sections are dictionaries: every field read with its default. */
  function FromSections(data: map<string, Value>, llm: map<string, Value>, behavior: map<string, Value>): Option<PersonaConfig>
  {
    var name := ReadStr(data, "name", "Unknown");
    var version := ReadStr(data, "version", "1.0.0");
    var description := ReadStr(data, "description", "");
    var author := ReadStr(data, "author", "Unknown");
    var tags := ReadStrList(data, "tags", []);
    var systemPrompt := ReadStr(llm, "system_prompt", "");
    var temperature := ReadReal(llm, "temperature", 0.7);
    var topP := ReadReal(llm, "top_p", 0.9);
    var maxTokens := ReadInt(llm, "max_tokens", 200);
    var useEmojis := ReadBool(behavior, "use_emojis", false);
    var emojiFrequency := ReadReal(behavior, "emoji_frequency", 0.0);
    var casualLanguage := ReadBool(behavior, "casual_language", false);
    var greetings := ReadStrList(behavior, "greetings", ["Hello!"]);
    var farewells := ReadStrList(behavior, "farewells", ["Goodbye!"]);
    var emotionMap := ReadStrMap(data, "emotion_map");
    if name.None? || version.None? || description.None? || author.None? || tags.None?
       || systemPrompt.None? || temperature.None? || topP.None? || maxTokens.None?
       || useEmojis.None? || emojiFrequency.None? || casualLanguage.None?
       || greetings.None? || farewells.None? || emotionMap.None?
    then None
    else
      Some(NewPersona(name.value, version.value, description.value, author.value, tags.value,
                      systemPrompt.value, temperature.value, topP.value, maxTokens.value,
                      useEmojis.value, emojiFrequency.value, casualLanguage.value,
                      greetings.value, farewells.value, emotionMap.value))
  }

  /** What one persona file yields: `None` for a file that could not be read or does not read as a profile. */
  function Parsed(file: Option<map<string, Value>>): (r: Option<PersonaConfig>)
    ensures file.None? ==> r.None?
    ensures forall p :: file == Some(ToDict(p)) ==> r == Some(p)
  {
    if file.None? then None
    else
      assert forall p :: file == Some(ToDict(p)) ==> FromDict(file.value) == Some(p) by {
        forall p | file == Some(ToDict(p)) {
          FromDictToDict(p);
        }
      }
      FromDict(file.value)
  }

  /** The `llm_config` section of the file layout. */
  function LlmSection(p: PersonaConfig): map<string, Value> {
    map["system_prompt" := Str(p.systemPrompt), "temperature" := Real(p.temperature),
        "top_p" := Real(p.topP), "max_tokens" := Int(p.maxTokens)]
  }

  /** The `behavior` section of the file layout. */
  function BehaviorSection(p: PersonaConfig): map<string, Value> {
    map["use_emojis" := Bool(p.useEmojis), "emoji_frequency" := Real(p.emojiFrequency),
        "casual_language" := Bool(p.casualLanguage), "greetings" := StrList(p.greetings),
        "farewells" := StrList(p.farewells)]
  }

  /** `PersonaConfig.to_dict`: the file layout, with the LLM and behaviour settings in their own sections. */
  function ToDict(p: PersonaConfig): (d: map<string, Value>)
    ensures d.Keys == {"name", "version", "description", "author", "tags", "llm_config", "behavior", "emotion_map"}
    ensures d["llm_config"].Dict? && d["llm_config"].entries.Keys == {"system_prompt", "temperature", "top_p", "max_tokens"}
    ensures d["behavior"].Dict?
    ensures d["behavior"].entries.Keys == {"use_emojis", "emoji_frequency", "casual_language", "greetings", "farewells"}
  {
    map[
      "name" := Str(p.name),
      "version" := Str(p.version),
      "description" := Str(p.description),
      "author" := Str(p.author),
      "tags" := StrList(p.tags),
      "llm_config" := Dict(LlmSection(p)),
      "behavior" := Dict(BehaviorSection(p)),
      "emotion_map" := StrMap(p.emotionMap)]
  }

  /** A list of strings written under `key` reads back as the same list. */
  lemma ReadStrListWritten(d: map<string, Value>, key: string, default: seq<string>, ss: seq<string>)
    requires key in d && d[key] == StrList(ss)
    ensures ReadStrList(d, key, default) == Some(Some(ss))
  {
    StrListRoundTrip(ss);
  }

  /** A string mapping written under `key` reads back as the same mapping. */
  lemma ReadStrMapWritten(d: map<string, Value>, key: string, m: map<string, string>)
    requires key in d && d[key] == StrMap(m)
    ensures ReadStrMap(d, key) == Some(Some(m))
  {
    StrMapRoundTrip(m);
  }

  /** Reading the written `llm_config` section back gives the profile's LLM settings. */
  lemma LlmSectionRoundTrip(p: PersonaConfig)
    ensures Section(ToDict(p), "llm_config") == Some(LlmSection(p))
    ensures ReadStr(LlmSection(p), "system_prompt", "") == Some(p.systemPrompt)
    ensures ReadReal(LlmSection(p), "temperature", 0.7) == Some(p.temperature)
    ensures ReadReal(LlmSection(p), "top_p", 0.9) == Some(p.topP)
    ensures ReadInt(LlmSection(p), "max_tokens", 200) == Some(p.maxTokens)
  {
  }

  /** Reading the written `behavior` section back gives the profile's behaviour settings. */
  lemma BehaviorSectionRoundTrip(p: PersonaConfig)
    ensures Section(ToDict(p), "behavior") == Some(BehaviorSection(p))
    ensures ReadBool(BehaviorSection(p), "use_emojis", false) == Some(p.useEmojis)
    ensures ReadReal(BehaviorSection(p), "emoji_frequency", 0.0) == Some(p.emojiFrequency)
    ensures ReadBool(BehaviorSection(p), "casual_language", false) == Some(p.casualLanguage)
    ensures ReadStrList(BehaviorSection(p), "greetings", ["Hello!"]) == Some(Some(p.greetings))
    ensures ReadStrList(BehaviorSection(p), "farewells", ["Goodbye!"]) == Some(Some(p.farewells))
  {
    var b := BehaviorSection(p);
    ReadStrListWritten(b, "greetings", ["Hello!"], p.greetings);
    ReadStrListWritten(b, "farewells", ["Goodbye!"], p.farewells);
  }

  /** Reading the written top-level fields back gives the profile's identity, tags and emotion map. */
  lemma TopLevelRoundTrip(p: PersonaConfig)
    ensures ReadStr(ToDict(p), "name", "Unknown") == Some(p.name)
    ensures ReadStr(ToDict(p), "version", "1.0.0") == Some(p.version)
    ensures ReadStr(ToDict(p), "description", "") == Some(p.description)
    ensures ReadStr(ToDict(p), "author", "Unknown") == Some(p.author)
    ensures ReadStrList(ToDict(p), "tags", []) == Some(Some(p.tags))
    ensures ReadStrMap(ToDict(p), "emotion_map") == Some(Some(p.emotionMap))
  {
    var d := ToDict(p);
    ReadStrListWritten(d, "tags", [], p.tags);
    ReadStrMapWritten(d, "emotion_map", p.emotionMap);
  }

  /** Writing a profile out and reading it back gives the same profile, field by field. */
  lemma FromDictToDict(p: PersonaConfig)
    ensures FromDict(ToDict(p)) == Some(p)
  {
    LlmSectionRoundTrip(p);
    BehaviorSectionRoundTrip(p);
    TopLevelRoundTrip(p);
  }

  /**
   * An empty dictionary reads as a profile named "Unknown" with an empty system prompt, one
   * greeting "Hello!" and one farewell "Goodbye!": the reader's defaults, not the dataclass's.
   */
  lemma FromDictEmpty()
    ensures FromDict(map[]).Some?
    ensures var p := FromDict(map[]).value;
            && p.name == "Unknown" && p.version == "1.0.0" && p.description == "" && p.author == "Unknown"
            && p.tags == [] && p.systemPrompt == "" && p.temperature == 0.7 && p.topP == 0.9
            && p.maxTokens == 200 && !p.useEmojis && p.emojiFrequency == 0.0 && !p.casualLanguage
            && p.greetings == ["Hello!"] && p.farewells == ["Goodbye!"] && p.emotionMap == map[]
  {
    assert FromDict(map[]) == FromSections(map[], map[], map[]);
  }

  /** An explicit `null` greeting list in a file becomes the dataclass's two default greetings. */
  /**
   * Reading an empty dictionary does not give the dataclass defaults: the reader's own defaults
   * leave the system prompt empty and keep one greeting and one farewell.
   */
  lemma FromDictDefaultsDiffer()
    ensures FromDict(map[]).Some?
    ensures var p, q := FromDict(map[]).value, Minimal("Unknown", "1.0.0", "");
            && p.systemPrompt != q.systemPrompt && p.greetings != q.greetings && p.farewells != q.farewells
  {
    FromDictEmpty();
    assert |DefaultGreetings| == 2 && |DefaultFarewells| == 2;
  }

  lemma FromDictNullGreetings(data: map<string, Value>)
    requires FromDict(data).Some?
    requires "behavior" in data && data["behavior"].Dict?
    requires "greetings" in data["behavior"].entries && data["behavior"].entries["greetings"].Null?
    ensures FromDict(data).value.greetings == DefaultGreetings
  {
  }

  /** The profiles the files yield, in order. */
  function ParsedAll(files: seq<Option<map<string, Value>>>): (ps: seq<Option<PersonaConfig>>)
    ensures |ps| == |files|
    ensures forall i :: 0 <= i < |files| ==> ps[i] == Parsed(files[i])
  {
    seq(|files|, i requires 0 <= i < |files| => Parsed(files[i]))
  }

  /** The registry after reading one file: its profile under its lower-cased name, if it yields one. */
  function Registered(personas: map<string, PersonaConfig>, p: Option<PersonaConfig>): (r: map<string, PersonaConfig>)
    ensures p.None? ==> r == personas
    ensures p.Some? ==> r.Keys == personas.Keys + {Lower(p.value.name)} && r[Lower(p.value.name)] == p.value
    ensures p.Some? ==> forall k :: k in personas && k != Lower(p.value.name) ==> r[k] == personas[k]
  {
    match p
    case None => personas
    case Some(q) => personas[Lower(q.name) := q]
  }

  /** The registry after reading files that yield `ps`, in order. */
  function RegisteredAll(personas: map<string, PersonaConfig>, ps: seq<Option<PersonaConfig>>): (r: map<string, PersonaConfig>)
    ensures forall k :: k in r ==> k in personas || exists i :: 0 <= i < |ps| && ps[i].Some? && Lower(ps[i].value.name) == k
  {
    if ps == [] then personas
    else
      var init := ps[..|ps| - 1];
      assert forall i :: 0 <= i < |init| ==> init[i] == ps[i];
      Registered(RegisteredAll(personas, init), ps[|ps| - 1])
  }

  /** One more file read. */
  lemma RegisteredAllStep(personas: map<string, PersonaConfig>, ps: seq<Option<PersonaConfig>>, i: nat)
    requires i < |ps|
    ensures RegisteredAll(personas, ps[..i + 1]) == Registered(RegisteredAll(personas, ps[..i]), ps[i])
  {
    assert ps[..i + 1][..i] == ps[..i];
  }

  /** Reading files never forgets a profile name. */
  lemma {:induction false} RegisteredAllKeepsNames(personas: map<string, PersonaConfig>, ps: seq<Option<PersonaConfig>>)
    ensures personas.Keys <= RegisteredAll(personas, ps).Keys
  {
    if ps != [] {
      RegisteredAllKeepsNames(personas, ps[..|ps| - 1]);
    }
  }

  /**
   * The last profile read with a given lower-cased name is the one registered under it: a later
   * file with the same name overwrites an earlier one.
   */
  lemma {:induction false} RegisteredAllLastWins(personas: map<string, PersonaConfig>, ps: seq<Option<PersonaConfig>>, i: nat)
    requires i < |ps| && ps[i].Some?
    requires forall j :: i < j < |ps| && ps[j].Some? ==> Lower(ps[j].value.name) != Lower(ps[i].value.name)
    ensures Lower(ps[i].value.name) in RegisteredAll(personas, ps)
    ensures RegisteredAll(personas, ps)[Lower(ps[i].value.name)] == ps[i].value
  {
    var init := ps[..|ps| - 1];
    if i < |ps| - 1 {
      assert init[i] == ps[i];
      forall j | i < j < |init| && init[j].Some?
        ensures Lower(init[j].value.name) != Lower(init[i].value.name)
      {
        assert init[j] == ps[j];
      }
      RegisteredAllLastWins(personas, init, i);
    }
  }

  /**
   * The persona registry. `order` is the insertion order of the keys of the Python dictionary
   * `personas`: re-registering an existing key overwrites its profile in place.
   */
  class PersonaEngine {
    var personas: map<string, PersonaConfig>
    var order: seq<string>
    var currentPersona: Option<PersonaConfig>
    const bus: Events.EventBus

    ghost predicate Valid()
      reads this
    {
      && (forall k :: k in order <==> k in personas)
      && (forall i, j :: 0 <= i < j < |order| ==> order[i] != order[j])
    }

    /** An empty registry with no active persona; the directory scan is `LoadPersonas`. */
    constructor (bus: Events.EventBus)
      ensures this.bus == bus
      ensures personas == map[] && order == [] && currentPersona.None?
      ensures Valid()
    {
      this.bus := bus;
      personas := map[];
      order := [];
      currentPersona := None;
    }

    /** `_save_persona`'s registration (the file is not modelled): the profile under its lower-cased name. */
    method Register(p: PersonaConfig)
      requires Valid()
      modifies this
      ensures Valid()
      ensures personas == old(personas)[Lower(p.name) := p]
      ensures order == if Lower(p.name) in old(personas) then old(order) else old(order) + [Lower(p.name)]
      ensures currentPersona == old(currentPersona)
    {
      var key := Lower(p.name);
      if key !in personas {
        order := order + [key];
      }
      personas := personas[key := p];
    }

    /** `_load_persona_file`: a file whose content reads as a profile registers it; anything else is skipped. */
    method LoadPersonaFile(data: Option<map<string, Value>>)
      requires Valid()
      modifies this
      ensures Valid()
      ensures personas == Registered(old(personas), Parsed(data))
      ensures currentPersona == old(currentPersona)
    {
      var p := Parsed(data);
      if p.Some? {
        Register(p.value);
      }
    }

    /**
     * `_load_personas`: every file of the directory in scan order (`None` for a file that
     * could not be read or parsed).
     */
    method LoadPersonas(files: seq<Option<map<string, Value>>>)
      requires Valid()
      modifies this
      ensures Valid()
      ensures personas == RegisteredAll(old(personas), ParsedAll(files))
      ensures currentPersona == old(currentPersona)
    {
      ghost var ps := ParsedAll(files);
      var i := 0;
      while i < |files|
        invariant 0 <= i <= |files|
        invariant Valid() && currentPersona == old(currentPersona)
        invariant personas == RegisteredAll(old(personas), ps[..i])
      {
        RegisteredAllStep(old(personas), ps, i);
        LoadPersonaFile(files[i]);
        i := i + 1;
      }
      assert ps[..i] == ps;
    }

    /** `get_persona`: the lookup is by the lower-cased name. */
    function GetPersona(name: string): (r: Option<PersonaConfig>)
      reads this
      ensures r.Some? <==> Lower(name) in personas
      ensures r.Some? ==> r.value == personas[Lower(name)]
    {
      if Lower(name) in personas then Some(personas[Lower(name)]) else None
    }

    /** `list_personas`: every registry key exactly once, in insertion order. */
    function ListPersonas(): (names: seq<string>)
      requires Valid()
      reads this
      ensures forall k :: k in names <==> k in personas
      ensures |names| == |personas.Keys|
    {
      KeysCount(order, personas.Keys);
      order
    }

    /** The data of the `PERSONA_LOADED` event. */
    static function LoadedEventData(p: PersonaConfig): (d: map<string, Value>)
      ensures d.Keys == {"persona_name", "system_prompt", "temperature", "behavior"}
      ensures d["persona_name"] == Str(p.name)
    {
      map["persona_name" := Str(p.name), "system_prompt" := Str(p.systemPrompt),
          "temperature" := Real(p.temperature),
          "behavior" := Dict(map["use_emojis" := Bool(p.useEmojis), "casual_language" := Bool(p.casualLanguage)])]
    }

    /**
     * `load_persona`: an unknown name changes nothing and gives false; a known one becomes the
     * active persona, is announced on the bus, and gives true.
     */
    method LoadPersona(name: string, behave: Events.Behaviour) returns (ok: bool)
      requires bus.Valid()
      modifies this, bus
      ensures ok <==> Lower(name) in personas
      ensures personas == old(personas) && order == old(order)
      ensures !ok ==> currentPersona == old(currentPersona) && bus.history == old(bus.history)
      ensures ok ==> currentPersona == Some(personas[Lower(name)])
      ensures ok ==> bus.history == Events.RecordAll(old(bus.history),
                       Events.PublishTrace(old(bus.subscribers), behave,
                         Events.Event(Events.PersonaLoaded, LoadedEventData(personas[Lower(name)]), Some("persona_engine"))).published,
                       bus.maxHistory)
      ensures bus.Valid() && bus.subscribers == old(bus.subscribers)
    {
      var persona := GetPersona(name);
      if persona.None? {
        return false;
      }
      currentPersona := persona;
      var _ := bus.Publish(Events.Event(Events.PersonaLoaded, LoadedEventData(persona.value), Some("persona_engine")), behave);
      ok := true;
    }

    /**
     * `get_greeting`: "Hello!" without an active persona or with no greetings; otherwise the
     * greeting `random.choice` picks, here the one at `pick` modulo their number.
     */
    function GetGreeting(pick: nat): (g: string)
      reads this
      ensures currentPersona.None? || currentPersona.value.greetings == [] ==> g == "Hello!"
      ensures currentPersona.Some? && currentPersona.value.greetings != [] ==> g in currentPersona.value.greetings
    {
      if currentPersona.None? || currentPersona.value.greetings == [] then "Hello!"
      else currentPersona.value.greetings[pick % |currentPersona.value.greetings|]
    }

    /** `get_farewell`: as `GetGreeting`, with "Goodbye!" as the default. */
    function GetFarewell(pick: nat): (f: string)
      reads this
      ensures currentPersona.None? || currentPersona.value.farewells == [] ==> f == "Goodbye!"
      ensures currentPersona.Some? && currentPersona.value.farewells != [] ==> f in currentPersona.value.farewells
    {
      if currentPersona.None? || currentPersona.value.farewells == [] then "Goodbye!"
      else currentPersona.value.farewells[pick % |currentPersona.value.farewells|]
    }

    /** Every greeting of the active persona is one that can be picked. */
    lemma GreetingsAllReachable(i: nat)
      requires currentPersona.Some? && i < |currentPersona.value.greetings|
      ensures GetGreeting(i) == currentPersona.value.greetings[i]
    {
    }

    /** `map_emotion`: the active persona's mapping of `emotion`, or `emotion` itself when there is none. */
    function MapEmotion(emotion: string): (r: string)
      reads this
      ensures currentPersona.None? ==> r == emotion
      ensures currentPersona.Some? && emotion in currentPersona.value.emotionMap ==> r == currentPersona.value.emotionMap[emotion]
      ensures currentPersona.Some? && emotion !in currentPersona.value.emotionMap ==> r == emotion
    {
      if currentPersona.None? || currentPersona.value.emotionMap == map[] then emotion
      else if emotion in currentPersona.value.emotionMap then currentPersona.value.emotionMap[emotion]
      else emotion
    }
  }

  /** A duplicate-free sequence is as long as the set of its elements. */
  lemma {:induction false} KeysCount(s: seq<string>, keys: set<string>)
    requires forall k :: k in s <==> k in keys
    requires forall i, j :: 0 <= i < j < |s| ==> s[i] != s[j]
    ensures |s| == |keys|
  {
    if s != [] {
      var last := s[|s| - 1];
      var init := s[..|s| - 1];
      assert last !in init;
      KeysCount(init, keys - {last});
    }
  }
}
