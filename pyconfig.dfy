/**
 * Python's `configparser.ConfigParser` as the Facebook token chain uses it:
 * a DEFAULT section whose options every other section falls back to, named
 * sections of options, case-insensitive option names (`optionxform` lowers
 * them), `KeyError` for a missing section or option, and `read`/`write`
 * against files.
 */
module PyConfig {
  import opened Wrappers
  import Strings

  /** The Python exceptions the token chain can raise or catch. */
  datatype PyError =
    | KeyError(key: string)
    | AttributeError(name: string)
    | ValueError(text: string)
    | DuplicateOptionError(section: string)

  const DefaultSection: string := "DEFAULT"

  type Options = map<string, string>

  /** The parser's contents, and equally what a config file holds. */
  datatype ConfigData = ConfigData(defaults: Options, sections: map<string, Options>)

  /** `optionxform`: option names are stored and looked up lower-cased. */
  function OptionKey(option: string): string
  {
    Strings.ToLower(option)
  }

  /** `config[section]` exists. */
  predicate HasSection(c: ConfigData, section: string)
  {
    section == DefaultSection || section in c.sections
  }

  /**
   * `config[section][option]`: `KeyError(section)` when the section does not
   * exist, then the section's own option, then the DEFAULT one, and
   * `KeyError(option)`, with the name as written, when neither exists.
   */
  function Lookup(c: ConfigData, section: string, option: string): (r: Result<string, PyError>)
    ensures !HasSection(c, section) ==> r == Err(KeyError(section))
    ensures r.Err? ==> r.error == KeyError(section) || r.error == KeyError(option)
    ensures HasSection(c, section) && section != DefaultSection && OptionKey(option) in c.sections[section] ==>
      r == Ok(c.sections[section][OptionKey(option)])
    ensures HasSection(c, section) && (section == DefaultSection || OptionKey(option) !in c.sections[section]) ==>
      r == if OptionKey(option) in c.defaults then Ok(c.defaults[OptionKey(option)]) else Err(KeyError(option))
  {
    if !HasSection(c, section) then Err(KeyError(section))
    else
      var k := OptionKey(option);
      if section != DefaultSection && k in c.sections[section] then Ok(c.sections[section][k])
      else if k in c.defaults then Ok(c.defaults[k])
      else Err(KeyError(option))
  }

  /** `config[section][option] = value`; `KeyError(section)` when the section does not exist. */
  function SetOption(c: ConfigData, section: string, option: string, value: string): (r: Result<ConfigData, PyError>)
    ensures r.Err? <==> !HasSection(c, section)
    ensures r.Err? ==> r.error == KeyError(section)
  {
    if section == DefaultSection then Ok(ConfigData(c.defaults[OptionKey(option) := value], c.sections))
    else if section in c.sections then Ok(ConfigData(c.defaults, c.sections[section := c.sections[section][OptionKey(option) := value]]))
    else Err(KeyError(section))
  }

  /** Two names in `values` that `optionxform` turns into the same option. */
  predicate Clashes(values: Options)
  {
    exists a, b :: a in values && b in values && a != b && OptionKey(a) == OptionKey(b)
  }

  /** `values` as `read_dict` stores them: each under its lower-cased name. */
  function Stored(values: Options): (r: Options)
    requires !Clashes(values)
    ensures r.Keys == set k | k in values :: OptionKey(k)
    ensures forall k :: k in values ==> r[OptionKey(k)] == values[k]
  {
    map k | k in values :: OptionKey(k) := values[k]
  }

  /**
   * `config[section] = values`: the section's old options are dropped (for
   * DEFAULT, the defaults) and `read_dict` stores `values` under lower-cased
   * names; the parser is strict, so two names that lower-case alike raise
   * `DuplicateOptionError`.
   */
  function ReplaceSection(c: ConfigData, section: string, values: Options): (r: Result<ConfigData, PyError>)
    ensures r.Err? <==> Clashes(values)
    ensures r.Err? ==> r.error == DuplicateOptionError(section)
    ensures r.Ok? ==> HasSection(r.value, section)
  {
    if Clashes(values) then Err(DuplicateOptionError(section))
    else if section == DefaultSection then Ok(ConfigData(Stored(values), c.sections))
    else Ok(ConfigData(c.defaults, c.sections[section := Stored(values)]))
  }

  /** A single option never clashes: replacing a section with it stores it under its lower-cased name. */
  lemma ReplaceWithOne(c: ConfigData, section: string, option: string, value: string)
    requires section != DefaultSection
    ensures ReplaceSection(c, section, map[option := value]) ==
      Ok(ConfigData(c.defaults, c.sections[section := map[OptionKey(option) := value]]))
  {
    assert !Clashes(map[option := value]);
    assert Stored(map[option := value]) == map[OptionKey(option) := value];
  }

  /** `read`: the file's sections and options are added, its values overriding. */
  function Merge(c: ConfigData, file: ConfigData): (r: ConfigData)
    ensures r.sections.Keys == c.sections.Keys + file.sections.Keys
  {
    ConfigData(
      c.defaults + file.defaults,
      map s | s in c.sections.Keys + file.sections.Keys ::
        (if s in c.sections then c.sections[s] else map[]) + (if s in file.sections then file.sections[s] else map[]))
  }

  /** A value set is read back under any spelling of its name that lower-cases alike. */
  lemma LookupAfterSet(c: ConfigData, section: string, option: string, spelling: string, value: string)
    requires HasSection(c, section)
    requires OptionKey(spelling) == OptionKey(option)
    ensures Lookup(SetOption(c, section, option, value).value, section, spelling) == Ok(value)
  {
  }

  /** Setting an option of one named section changes no lookup in any other named section. */
  lemma SetIsLocal(c: ConfigData, section: string, option: string, value: string, other: string, name: string)
    requires section in c.sections && section != DefaultSection
    requires other != section
    ensures Lookup(SetOption(c, section, option, value).value, other, name) == Lookup(c, other, name)
  {
  }

  /**
   * After `config[section] = values`, the section answers for any spelling of
   * a name in `values` that lower-cases alike, and otherwise from DEFAULT.
   */
  lemma LookupAfterReplace(c: ConfigData, section: string, values: Options, option: string)
    requires section != DefaultSection && !Clashes(values)
    ensures var r := ReplaceSection(c, section, values).value;
      forall k :: k in values && OptionKey(k) == OptionKey(option) ==> Lookup(r, section, option) == Ok(values[k])
    ensures var r := ReplaceSection(c, section, values).value;
      (forall k :: k in values ==> OptionKey(k) != OptionKey(option)) ==>
        Lookup(r, section, option) ==
          if OptionKey(option) in c.defaults then Ok(c.defaults[OptionKey(option)]) else Err(KeyError(option))
  {
  }

  /** After `config[section][option] = value`, the section answers `value` for that name and as before otherwise. */
  lemma LookupAfterSetOption(c: ConfigData, section: string, option: string, value: string, other: string)
    requires section != DefaultSection && section in c.sections
    ensures Lookup(SetOption(c, section, option, value).value, section, other) ==
      if OptionKey(other) == OptionKey(option) then Ok(value) else Lookup(c, section, other)
  {
  }

  /** An option the file gives a section is what the section says after `read`. */
  lemma MergeOverrides(c: ConfigData, file: ConfigData, section: string, option: string)
    requires section in file.sections && section != DefaultSection
    requires OptionKey(option) in file.sections[section]
    ensures Lookup(Merge(c, file), section, option) == Ok(file.sections[section][OptionKey(option)])
  {
  }

  /** The files config files are read from and written to. */
  class Disk {
    var files: map<string, ConfigData>

    constructor(files: map<string, ConfigData>)
      ensures this.files == files
    {
      this.files := files;
    }
  }

  class ConfigParser {
    var data: ConfigData

    /** `ConfigParser()`: empty. */
    constructor()
      ensures data == ConfigData(map[], map[])
    {
      data := ConfigData(map[], map[]);
    }

    function Get(section: string, option: string): Result<string, PyError>
      reads this
    {
      Lookup(data, section, option)
    }

    /** `config.read(file)`: a missing file is skipped. */
    method Read(disk: Disk, file: string)
      modifies this
      ensures data == if file in disk.files then Merge(old(data), disk.files[file]) else old(data)
    {
      if file in disk.files {
        data := Merge(data, disk.files[file]);
      }
    }

    /** `with open(file, "w") as cf: config.write(cf)`. */
    method Write(disk: Disk, file: string)
      modifies disk
      ensures disk.files == old(disk.files)[file := data]
    {
      disk.files := disk.files[file := data];
    }

    /** `config[section] = values`. */
    method SetSection(section: string, values: Options) returns (raised: Option<PyError>)
      modifies this
      ensures match ReplaceSection(old(data), section, values)
        case Err(e) => raised == Some(e) && data == old(data)
        case Ok(d) => raised == None && data == d
    {
      var r := ReplaceSection(data, section, values);
      if r.Err? {
        return Some(r.error);
      }
      data := r.value;
      raised := None;
    }

    /** `config[section][option] = value`. */
    method Set(section: string, option: string, value: string) returns (raised: Option<PyError>)
      modifies this
      ensures SetOption(old(data), section, option, value).Ok? ==> raised == None && data == SetOption(old(data), section, option, value).value
      ensures SetOption(old(data), section, option, value).Err? ==> raised == Some(KeyError(section)) && data == old(data)
    {
      var r := SetOption(data, section, option, value);
      if r.Err? {
        return Some(r.error);
      }
      data := r.value;
      raised := None;
    }
  }
}
