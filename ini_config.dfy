/** The INI configuration file every integration reads with `configparser`:
    its sections and options, and the lookups the code makes on it. Option
    names are kept the way `configparser` stores them (lower-cased). */
module IniConfig {
  import opened Common
  import opened Strings

  /** A parsed INI file: its sections and their options (a missing file
      reads as no sections at all). */
  type ConfigFile = map<string, map<string, string>>

  /** `config.get(section, option)`. */
  function ConfigGet(cfg: ConfigFile, section: string, option: string): (r: Result<string>)
    ensures r.Ok? <==> section in cfg && option in cfg[section]
    ensures r.Ok? ==> r.value == cfg[section][option]
    ensures section !in cfg ==> r == Err(NoSection(section))
    ensures section in cfg && option !in cfg[section] ==> r == Err(NoOption(section, option))
  {
    if section !in cfg then Err(NoSection(section))
    else if option !in cfg[section] then Err(NoOption(section, option))
    else Ok(cfg[section][option])
  }

  /** `config.get(section, option, fallback=None)`. */
  function ConfigFallback(cfg: ConfigFile, section: string, option: string): (r: Option<string>)
    ensures r.Some? <==> ConfigGet(cfg, section, option).Ok?
    ensures r.Some? ==> r.value == ConfigGet(cfg, section, option).value
  {
    if section in cfg && option in cfg[section] then Some(cfg[section][option]) else None
  }

  /** `config.get(section, option, fallback=default)`. */
  function ConfigGetOr(cfg: ConfigFile, section: string, option: string, default: string): (r: string)
    ensures r == ConfigFallback(cfg, section, option).GetOr(default)
  {
    if section in cfg && option in cfg[section] then cfg[section][option] else default
  }

  const INVALID_INT: string := "invalid literal for int() with base 10: "

  /** `int(text)`: the value, or the ValueError Python raises. */
  function IntOf(text: string): (r: Result<int>)
    ensures r.Ok? <==> ParseInt(text).Some?
    ensures r.Ok? ==> Some(r.value) == ParseInt(text)
    ensures r.Err? ==> r.error == ValueError(INVALID_INT + text)
  {
    match ParseInt(text)
    case Some(n) => Ok(n)
    case None => Err(ValueError(INVALID_INT + text))
  }

  /** `config.getint(section, option, fallback=default)`: the fallback when
      the option is absent, a ValueError when it is present but not an integer. */
  function ConfigGetInt(cfg: ConfigFile, section: string, option: string, default: int): (r: Result<int>)
    ensures ConfigFallback(cfg, section, option).None? ==> r == Ok(default)
    ensures ConfigFallback(cfg, section, option).Some? ==> r == IntOf(cfg[section][option])
  {
    if section in cfg && option in cfg[section] then IntOf(cfg[section][option]) else Ok(default)
  }

  /** The texts `configparser` reads as true and as false, compared case-insensitively. */
  const TRUE_WORDS: set<string> := {"1", "YES", "TRUE", "ON"}
  const FALSE_WORDS: set<string> := {"0", "NO", "FALSE", "OFF"}

  /** `config.getboolean(section, option, fallback=default)`. */
  function ConfigGetBool(cfg: ConfigFile, section: string, option: string, default: bool): (r: Result<bool>)
    ensures ConfigFallback(cfg, section, option).None? ==> r == Ok(default)
    ensures ConfigFallback(cfg, section, option).Some? ==>
      var word := Upper(cfg[section][option]);
      && (r == Ok(true) <==> word in TRUE_WORDS)
      && (r == Ok(false) <==> word in FALSE_WORDS)
      && (r.Err? <==> word !in TRUE_WORDS + FALSE_WORDS)
  {
    if section in cfg && option in cfg[section] then
      var word := Upper(cfg[section][option]);
      if word in TRUE_WORDS then Ok(true)
      else if word in FALSE_WORDS then Ok(false)
      else Err(ValueError("Not a boolean: " + cfg[section][option]))
    else Ok(default)
  }

  /** The options of a section as `config.items(section)` lists them, or none
      when the section is missing (the code only asks after `has_section`). */
  function SectionItems(cfg: ConfigFile, section: string): (items: map<string, string>)
    ensures section in cfg ==> items == cfg[section]
    ensures section !in cfg ==> items == map[]
  {
    if section in cfg then cfg[section] else map[]
  }
}
