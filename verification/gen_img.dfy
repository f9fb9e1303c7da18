/**
 * The image-generator plugin: model aliases, the in-place settings update,
 * the model list, and the request the `.genimg` command builds. The HTTP
 * request, the temporary file and saving the configuration are outside
 * the model; the host's configuration dictionary is a `Config` object.
 */
module GenImg {
  import opened Wrappers
  import opened Text

  const ModuleName := "genimg"

  // ---------------------------------------------------------------------
  // AVAILABLE_MODELS
  // ---------------------------------------------------------------------

  /**
   * `AVAILABLE_MODELS` is used two ways: the model list walks its items in
   * insertion order, and `.genimgmodel` looks a key up. A Dafny map has no
   * order, so the dictionary is written as both an ordered sequence of its
   * items and a lookup table, and `EntriesAreTheTable` proves that the two
   * hold the same pairs.
   */
  const ModelEntries: seq<(string, string)> :=
    [("1", "flux"), ("2", "turbo"), ("flux", "flux"), ("turbo", "turbo")]

  /** `AVAILABLE_MODELS` as a lookup table. */
  const AvailableModels: map<string, string> :=
    map["1" := "flux", "2" := "turbo", "flux" := "flux", "turbo" := "turbo"]

  /** The ordered entries and the lookup table describe the same dictionary. */
  lemma EntriesAreTheTable()
    ensures forall i :: 0 <= i < |ModelEntries| ==>
      ModelEntries[i].0 in AvailableModels && AvailableModels[ModelEntries[i].0] == ModelEntries[i].1
    ensures forall k :: k in AvailableModels ==> exists i :: 0 <= i < |ModelEntries| && ModelEntries[i].0 == k
  {
    forall k | k in AvailableModels
      ensures exists i :: 0 <= i < |ModelEntries| && ModelEntries[i].0 == k
    {
      if k == "1" { assert ModelEntries[0].0 == k; }
      else if k == "2" { assert ModelEntries[1].0 == k; }
      else if k == "flux" { assert ModelEntries[2].0 == k; }
      else { assert ModelEntries[3].0 == k; }
    }
  }

  /** The model an argument of `.genimgmodel` selects: its lower-cased form looked up. */
  function ResolveModel(arg: string): (r: Option<string>)
    ensures r.Some? <==> Lower(arg) in AvailableModels
    ensures r.Some? ==> r.value == AvailableModels[Lower(arg)]
    ensures r.Some? ==> r.value == "flux" || r.value == "turbo"
  {
    var key := Lower(arg);
    if key in AvailableModels then Some(AvailableModels[key]) else None
  }

  /** "1" and "flux" select the same model, and so do "2" and "turbo". */
  lemma AliasesAgree(arg: string)
    ensures ResolveModel(arg) == Some("flux") <==> Lower(arg) == "1" || Lower(arg) == "flux"
    ensures ResolveModel(arg) == Some("turbo") <==> Lower(arg) == "2" || Lower(arg) == "turbo"
  {
  }

  // ---------------------------------------------------------------------
  // Configuration and set_setting
  // ---------------------------------------------------------------------

  /** A setting value as the configuration stores it. */
  datatype SettingValue = Str(s: string) | Int(i: int) | Bool(b: bool) {
    /** `str(value)`. */
    function Text(): string {
      match this
      case Str(s) => s
      case Int(i) => IntToString(i)
      case Bool(b) => if b then "True" else "False"
    }

    /** Python truthiness of the value. */
    predicate Truthy() {
      match this
      case Str(s) => s != ""
      case Int(i) => i != 0
      case Bool(b) => b
    }
  }

  /** One entry of `external_modules`: its "settings" and "descriptions" dictionaries. */
  datatype ModuleConfig = ModuleConfig(settings: map<string, SettingValue>, descriptions: map<string, string>)

  /**
   * The `external_modules` part of the configuration after `set_setting`:
   * missing containers are created empty, then the key is written.
   */
  function WithSetting(external: Option<map<string, ModuleConfig>>, key: string, value: SettingValue)
    : (r: map<string, ModuleConfig>)
    ensures ModuleName in r && key in r[ModuleName].settings && r[ModuleName].settings[key] == value
  {
    var modules := if external.Some? then external.value else map[];
    var entry := if ModuleName in modules then modules[ModuleName] else ModuleConfig(map[], map[]);
    modules[ModuleName := entry.(settings := entry.settings[key := value])]
  }

  /**
   * `set_setting` touches nothing but the one key: other modules and other
   * settings keep their values, the descriptions stay, and a module entry
   * created on the way holds just the new key and no descriptions.
   */
  lemma WithSettingFrame(external: Option<map<string, ModuleConfig>>, key: string, value: SettingValue)
    ensures var r := WithSetting(external, key, value);
      && (forall m :: m != ModuleName ==>
            (m in r <==> external.Some? && m in external.value) &&
            (m in r ==> r[m] == external.value[m]))
      && (external.Some? && ModuleName in external.value ==>
            var before := external.value[ModuleName];
            && r[ModuleName].descriptions == before.descriptions
            && r[ModuleName].settings.Keys == before.settings.Keys + {key}
            && (forall k :: k in before.settings && k != key ==>
                  r[ModuleName].settings[k] == before.settings[k]))
      && (external.None? || ModuleName !in external.value ==>
            r[ModuleName] == ModuleConfig(map[key := value], map[]))
  {
  }

  /** The host's configuration dictionary; `None` when it has no "external_modules" key. */
  class Config {
    var externalModules: Option<map<string, ModuleConfig>>

    constructor (externalModules: Option<map<string, ModuleConfig>>)
      ensures this.externalModules == externalModules
    {
      this.externalModules := externalModules;
    }

    /**
     * `get_setting(key, default)`: the stored value, or `default` when the
     * module or the key has none.
     */
    function GetSetting(key: string, default: SettingValue): (v: SettingValue)
      reads this
      ensures externalModules.Some? && ModuleName in externalModules.value
              && key in externalModules.value[ModuleName].settings
        ==> v == externalModules.value[ModuleName].settings[key]
      ensures externalModules.None? || ModuleName !in externalModules.value
              || key !in externalModules.value[ModuleName].settings
        ==> v == default
    {
      if externalModules.Some? && ModuleName in externalModules.value
         && key in externalModules.value[ModuleName].settings
      then externalModules.value[ModuleName].settings[key]
      else default
    }

    /** `set_setting(key, value)`, without saving the configuration to disk. */
    method SetSetting(key: string, value: SettingValue)
      modifies this
      ensures externalModules == Some(WithSetting(old(externalModules), key, value))
      ensures GetSetting(key, Str("")) == value
    {
      ghost var modules0 := if externalModules.Some? then externalModules.value else map[];
      ghost var entry0 := if ModuleName in modules0 then modules0[ModuleName] else ModuleConfig(map[], map[]);
      if externalModules.None? {
        externalModules := Some(map[]);
      }
      if ModuleName !in externalModules.value {
        externalModules := Some(externalModules.value[ModuleName := ModuleConfig(map[], map[])]);
      }
      assert externalModules.value == modules0[ModuleName := entry0];
      var entry := externalModules.value[ModuleName];
      externalModules := Some(externalModules.value[ModuleName := entry.(settings := entry.settings[key := value])]);
      assert externalModules.value == modules0[ModuleName := entry0.(settings := entry0.settings[key := value])];
    }

    /** The model setting as the commands read it: "flux" until one is stored. */
    function CurrentModel(): (m: string)
      reads this
      ensures externalModules.None? || ModuleName !in externalModules.value
              || "model" !in externalModules.value[ModuleName].settings
        ==> m == "flux"
      ensures externalModules.Some? && ModuleName in externalModules.value
              && "model" in externalModules.value[ModuleName].settings
              && externalModules.value[ModuleName].settings["model"].Str?
        ==> m == externalModules.value[ModuleName].settings["model"].s
    {
      GetSetting("model", Str("flux")).Text()
    }

    /**
     * `.genimgmodel [model]`: without arguments the model list; with a
     * known model the setting is written; with an unknown one nothing
     * changes.
     */
    method ModelCommand(args: seq<string>) returns (reply: string)
      modifies this
      ensures |args| == 0 ==>
        externalModules == old(externalModules) && reply == ModelListText(old(CurrentModel()))
      ensures |args| > 0 && ResolveModel(args[0]).None? ==>
        externalModules == old(externalModules) &&
        reply == "❌ Неизвестная модель: " + Lower(args[0]) + "\nИспользуйте .genimgmodel для просмотра списка"
      ensures |args| > 0 && ResolveModel(args[0]).Some? ==>
        var chosen := ResolveModel(args[0]).value;
        && externalModules == Some(WithSetting(old(externalModules), "model", Str(chosen)))
        && CurrentModel() == chosen
        && reply == "✅ Модель изменена: " + old(CurrentModel()) + " → **" + chosen + "**"
    {
      if |args| == 0 {
        reply := RenderModelList(ModelEntries, CurrentModel());
        return;
      }
      var modelInput := Lower(args[0]);
      if modelInput in AvailableModels {
        var oldModel := CurrentModel();
        var newModel := AvailableModels[modelInput];
        SetSetting("model", Str(newModel));
        reply := "✅ Модель изменена: " + oldModel + " → **" + newModel + "**";
      } else {
        reply := "❌ Неизвестная модель: " + modelInput + "\nИспользуйте .genimgmodel для просмотра списка";
      }
    }

    /**
     * `.genimg [prompt]`: usage text without a prompt, an error without a
     * chat id, otherwise the request for the joined prompt and the
     * current settings.
     */
    function GenerateCommand(args: seq<string>, chatId: Option<int>): (o: GenOutcome)
      reads this
      ensures o.GenUsage? <==> |args| == 0
      ensures o.NoChat? <==> |args| > 0 && !(chatId.Some? && chatId.value != 0)
      ensures o.Generate? ==>
        && o.prompt == Join(args, " ")
        && o.model == CurrentModel()
        && o.url == ImageUrl(o.prompt, GetSetting("width", Int(1024)).Text(),
                             GetSetting("height", Int(1024)).Text(), o.model,
                             GetSetting("enchant", Bool(true)).Truthy())
    {
      if |args| == 0 then
        GenUsage(CurrentModel(), GetSetting("width", Int(1024)).Text(),
                 GetSetting("height", Int(1024)).Text(), GetSetting("enchant", Bool(true)).Text())
      else if !(chatId.Some? && chatId.value != 0) then NoChat
      else
        var prompt := Join(args, " ");
        var model := CurrentModel();
        Generate(prompt, model,
                 ImageUrl(prompt, GetSetting("width", Int(1024)).Text(), GetSetting("height", Int(1024)).Text(),
                          model, GetSetting("enchant", Bool(true)).Truthy()))
    }
  }

  // ---------------------------------------------------------------------
  // The model list
  // ---------------------------------------------------------------------

  /** One line of the model list: its mark, its 1-based position among all entries, its model. */
  datatype ModelLine = ModelLine(marked: bool, number: nat, model: string)

  /**
   * The lines the listing loop emits for `entries`: one per entry whose key
   * is all digits, numbered by the entry's position in the whole dictionary.
   */
  function ModelLines(entries: seq<(string, string)>, current: string): seq<ModelLine> {
    if |entries| == 0 then []
    else
      var last := entries[|entries| - 1];
      ModelLines(entries[..|entries| - 1], current)
        + (if IsDigits(last.0) then [ModelLine(last.1 == current, |entries|, last.1)] else [])
  }

  /**
   * A line is listed exactly for a digit key, with that entry's position
   * and value, and it is marked exactly when its model is the current one.
   */
  lemma {:induction false} ModelLinesIff(entries: seq<(string, string)>, current: string, line: ModelLine)
    ensures line in ModelLines(entries, current) <==>
      exists i :: 0 <= i < |entries| && IsDigits(entries[i].0) &&
        line == ModelLine(entries[i].1 == current, i + 1, entries[i].1)
    ensures line in ModelLines(entries, current) ==> (line.marked <==> line.model == current)
  {
    if |entries| > 0 {
      var front := entries[..|entries| - 1];
      ModelLinesIff(front, current, line);
      if line in ModelLines(front, current) {
        var i :| 0 <= i < |front| && IsDigits(front[i].0) &&
          line == ModelLine(front[i].1 == current, i + 1, front[i].1);
        assert entries[i] == front[i];
      }
      if exists i :: 0 <= i < |entries| && IsDigits(entries[i].0) &&
           line == ModelLine(entries[i].1 == current, i + 1, entries[i].1) {
        var i :| 0 <= i < |entries| && IsDigits(entries[i].0) &&
          line == ModelLine(entries[i].1 == current, i + 1, entries[i].1);
        if i < |front| {
          assert entries[i] == front[i];
        }
      }
    }
  }

  /** With `AVAILABLE_MODELS`, the list is "1. flux" and "2. turbo". */
  lemma AvailableModelLines(current: string)
    ensures ModelLines(ModelEntries, current) ==
      [ModelLine("flux" == current, 1, "flux"), ModelLine("turbo" == current, 2, "turbo")]
  {
    var e := ModelEntries;
    assert e[..1][..0] == [];
    assert IsDigits(e[0].0);
    assert ModelLines(e[..1], current) == [ModelLine("flux" == current, 1, "flux")];
    assert e[..2][..1] == e[..1];
    assert IsDigits(e[1].0);
    assert ModelLines(e[..2], current) == [ModelLine("flux" == current, 1, "flux"), ModelLine("turbo" == current, 2, "turbo")];
    assert e[..3][..2] == e[..2];
    assert !IsDigits(e[2].0) by { assert e[2].0[0] == 'f'; }
    assert ModelLines(e[..3], current) == ModelLines(e[..2], current);
    assert e[..4] == e && e[..4][..3] == e[..3];
    assert !IsDigits(e[3].0) by { assert e[3].0[0] == 't'; }
  }

  function RenderLine(line: ModelLine): string {
    (if line.marked then "✅" else "⚪") + " " + NatToString(line.number) + ". " + line.model + "\n"
  }

  function RenderLines(lines: seq<ModelLine>): string {
    if |lines| == 0 then "" else RenderLines(lines[..|lines| - 1]) + RenderLine(lines[|lines| - 1])
  }

  const ListHeader := "🤖 Доступные модели для генерации изображений:\n\n"

  function ListFooter(current: string): string {
    "\nТекущая модель: **" + current + "**\n"
    + "\nИспользование: .genimgmodel [номер или название]\n"
    + "Примеры: .genimgmodel 1 или .genimgmodel flux"
  }

  /** The whole list text: header, the model lines, the footer. */
  function ModelListText(current: string): string {
    ListText(ModelEntries, current)
  }

  function ListText(entries: seq<(string, string)>, current: string): string {
    ListHeader + RenderLines(ModelLines(entries, current)) + ListFooter(current)
  }

  /** One more entry adds its line, if its key is all digits, to the text. */
  lemma ModelLinesStep(entries: seq<(string, string)>, current: string, i: nat)
    requires i < |entries|
    ensures RenderLines(ModelLines(entries[..i + 1], current)) ==
      RenderLines(ModelLines(entries[..i], current))
      + (if IsDigits(entries[i].0) then RenderLine(ModelLine(entries[i].1 == current, i + 1, entries[i].1)) else "")
  {
    assert entries[..i + 1][..i] == entries[..i];
    var lines := ModelLines(entries[..i], current);
    if IsDigits(entries[i].0) {
      var line := ModelLine(entries[i].1 == current, i + 1, entries[i].1);
      assert (lines + [line])[..|lines|] == lines;
    } else {
      assert ModelLines(entries[..i + 1], current) == lines + [];
      assert lines + [] == lines;
      assert RenderLines(lines) + "" == RenderLines(lines);
    }
  }

  /** The loop of `genimgmodel_command` that accumulates the list text over the dictionary's entries. */
  method RenderModelList(entries: seq<(string, string)>, current: string) returns (text: string)
    ensures text == ListText(entries, current)
  {
    text := ListHeader;
    assert entries[..0] == [];
    EmptyRight(ListHeader);
    for i := 0 to |entries|
      invariant text == ListHeader + RenderLines(ModelLines(entries[..i], current))
    {
      var key, model := entries[i].0, entries[i].1;
      ghost var shown := RenderLines(ModelLines(entries[..i], current));
      ModelLinesStep(entries, current, i);
      if IsDigits(key) {
        var line := RenderLine(ModelLine(model == current, i + 1, model));
        Reassociate(ListHeader, shown, line);
        text := text + line;
      } else {
        EmptyRight(shown);
      }
    }
    assert entries[..|entries|] == entries;
    text := text + ListFooter(current);
  }

  lemma EmptyRight(s: string)
    ensures s + "" == s
  {
  }

  lemma Reassociate(a: string, b: string, c: string)
    ensures (a + b) + c == a + (b + c)
  {
  }

  // ---------------------------------------------------------------------
  // The generation request
  // ---------------------------------------------------------------------

  const ImageBase := "https://pollinations.ai/p/"

  /** The request URL `genimg_command` builds, with the settings already rendered by `str()`. */
  function ImageUrl(prompt: string, width: string, height: string, model: string, enchant: bool): (url: string)
    ensures StartsWith(url, ImageBase + prompt + "?width=" + width + "&height=" + height)
    ensures EndsWith(url, "&model=" + model + "&nologo=true&enchant=" + (if enchant then "true" else "false"))
    ensures |url| == |ImageBase + prompt + "?width=" + width + "&height=" + height|
                     + |"&model=" + model + "&nologo=true&enchant=" + (if enchant then "true" else "false")|
  {
    var head := ImageBase + prompt + "?width=" + width + "&height=" + height;
    var tail := "&model=" + model + "&nologo=true&enchant=" + (if enchant then "true" else "false");
    assert (head + tail)[..|head|] == head;
    assert (head + tail)[|head + tail| - |tail|..] == tail;
    head + tail
  }

  /** A string ending in `suffix` has the suffix's characters at the matching places from its end. */
  lemma EndsWithAt(s: string, suffix: string, j: nat)
    requires EndsWith(s, suffix) && j < |suffix|
    ensures s[|s| - |suffix| + j] == suffix[j]
  {
    assert s[|s| - |suffix|..][j] == s[|s| - |suffix| + j];
  }

  /** The enchant flag can be read back from the end of the URL. */
  lemma ImageUrlEnchant(prompt: string, width: string, height: string, model: string, enchant: bool)
    ensures EndsWith(ImageUrl(prompt, width, height, model, enchant), "&enchant=true") <==> enchant
  {
    var url := ImageUrl(prompt, width, height, model, enchant);
    var flag := if enchant then "true" else "false";
    var tail := "&model=" + model + "&nologo=true&enchant=" + flag;
    assert EndsWith(url, tail);
    if enchant {
      assert tail == ("&model=" + model + "&nologo=true") + "&enchant=true";
      assert url[|url| - |tail|..][|tail| - 13..] == "&enchant=true";
    } else if EndsWith(url, "&enchant=true") {
      assert tail[|tail| - 4] == 'a';
      EndsWithAt(url, tail, |tail| - 4);
      EndsWithAt(url, "&enchant=true", 9);
    }
  }

  /** What `.genimg` does before the HTTP request. */
  datatype GenOutcome =
    | GenUsage(model: string, width: string, height: string, enchant: string)
    | NoChat
    | Generate(prompt: string, model: string, url: string)
}
