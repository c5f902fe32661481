/**
 * The plugin registry (src/core/plugins.py): `load_plugin` turns one compiled
 * plugin file into a named, validated parser class with its metadata, and
 * `PluginManager` keeps the name-to-class and name-to-metadata maps that
 * `load_plugins` rebuilds from the plugin directory.
 *
 * Executing a module is outside the model: a plugin file carries what
 * executing it yields (an exception, or the module's `Parser` attribute).
 */
module Plugins {
  import opened Wrappers
  import opened Text
  import opened Lines

  /** A class attribute: a str, or any other value. */
  datatype Attr = Text(s: string) | NotText

  /** A `Parser` class: whether it has `parse` (what the IParser protocol check looks at) and its attributes. */
  datatype ParserClass = ParserClass(hasParse: bool, attrs: map<string, Attr>)

  /** What importing a plugin file gives. */
  datatype Loaded =
    | NoLoader                           // no module spec or loader for the file
    | Raised(error: Error)               // executing the module raised
    | Executed(parser: Option<ParserClass>)  // the module's `Parser` attribute, if any

  datatype PluginFile = PluginFile(name: string, loaded: Loaded)

  datatype Plugin = Plugin(name: string, parser: ParserClass, metadata: map<string, string>)

  /** The index of the last `.` in `s`, or -1. */
  function LastDot(s: string): (i: int)
    ensures -1 <= i < |s|
    ensures i >= 0 ==> s[i] == '.' && forall k :: i < k < |s| ==> s[k] != '.'
    ensures i == -1 ==> forall k :: 0 <= k < |s| ==> s[k] != '.'
  {
    if s == [] then -1
    else if s[|s| - 1] == '.' then |s| - 1
    else LastDot(s[..|s| - 1])
  }

  /** `Path(name).stem`: the name without its final suffix; a leading or trailing dot is no suffix. */
  function Stem(name: string): (stem: string)
    ensures |stem| <= |name| && stem == name[..|stem|]
    ensures |stem| < |name| ==> 0 < |stem| < |name| - 1 && name[|stem|] == '.'
                                && forall k :: |stem| < k < |name| ==> name[k] != '.'
  {
    var i := LastDot(name);
    if 0 < i < |name| - 1 then name[..i] else name
  }

  /** The stem of a `.pyc` file name that has a base is that base. */
  lemma StemOfPyc(base: string)
    requires base != []
    ensures Stem(base + ".pyc") == base
  {
    var name := base + ".pyc";
    assert name[|name| - 4] == '.';
    assert forall k :: |name| - 4 < k < |name| ==> name[k] != '.';
    var i := LastDot(name);
    assert i == |name| - 4;
    assert name[..i] == base;
  }

  /** A required class variable is valid when it is a str that is not blank. */
  predicate ValidVariable(c: ParserClass, v: string) {
    v in c.attrs && c.attrs[v].Text? && !IsBlank(c.attrs[v].s)
  }

  /** The variables `validate_parser_class` complains about: missing, not a str, or blank. */
  function Invalid(c: ParserClass): string -> bool {
    v => !ValidVariable(c, v)
  }

  /**
   * `validate_parser_class(parser_class, required_variables)` of
   * src/build_plugins.py: one complaint per invalid variable, in order, and
   * ValueError when there is any.
   */
  function ValidateParserClass(c: ParserClass, required: seq<string>): (r: Result<seq<string>>)
    ensures r.Ok? <==> forall v :: v in required ==> ValidVariable(c, v)
    ensures r.Ok? ==> r.value == []
    ensures r.Err? ==> r.error == ValueError
  {
    var errors := Keep(required, Invalid(c));
    if errors != [] then
      assert Invalid(c)(errors[0]);
      Err(ValueError)
    else Ok(errors)
  }

  // ---------------------------------------------------------------------
  // The module's import of the validation helpers
  // ---------------------------------------------------------------------

  /** The names `core.interfaces` defines: those it imports, and `IParser`. */
  const InterfacesNames: set<string> := {"Any", "Protocol", "runtime_checkable", "Statement", "IParser"}

  /** The names `core.plugins` takes from `core.interfaces`. */
  const PluginsImports: seq<string> := ["IParser", "validate_parser", "class_variables"]

  /** `from m import a, b, ...`: each name in turn, ImportError at the first one `m` does not define. */
  function ImportFrom(defined: set<string>, names: seq<string>): (r: Result<()>)
    ensures r.Ok? <==> forall n :: n in names ==> n in defined
    ensures r.Err? ==> r.error == ImportError
  {
    if names == [] then Ok(())
    else if names[0] !in defined then Err(ImportError)
    else ImportFrom(defined, names[1..])
  }

  /**
   * Loading the plugins with `core.plugins` as written: the module's own
   * import line runs first, and only if it succeeds do the files load.
   */
  function LoadPluginsAsWritten(files: seq<PluginFile>, required: seq<string>): Result<Registry> {
    match ImportFrom(InterfacesNames, PluginsImports)
    case Err(e) => Err(e)
    case Ok(_) => Ok(LoadAll(files, required))
  }

  /**
   * As written, `core.plugins` cannot be imported: `core.interfaces` does
   * not define `validate_parser`, so no plugin is ever loaded, whatever the
   * files hold. With the helpers of src/build_plugins.py it imports.
   */
  lemma PluginsImportRaises(files: seq<PluginFile>, required: seq<string>)
    ensures "validate_parser" !in InterfacesNames && "class_variables" !in InterfacesNames
    ensures LoadPluginsAsWritten(files, required) == Err(ImportError)
    ensures ImportFrom(InterfacesNames + {"validate_parser", "class_variables"}, PluginsImports).Ok?
  {
    assert PluginsImports[1] == "validate_parser";
  }

  /**
   * `load_plugin(plugin_file)`: the plugin's name, its `Parser` class and
   * the values of the required class variables, or the exception it raises.
   */
  function LoadPlugin(f: PluginFile, required: seq<string>): (r: Result<Plugin>)
    ensures r.Ok? <==> f.loaded.Executed? && f.loaded.parser.Some? && f.loaded.parser.value.hasParse
                       && forall v :: v in required ==> ValidVariable(f.loaded.parser.value, v)
    ensures r.Ok? ==> r.value.name == Stem(f.name) && r.value.parser == f.loaded.parser.value
    ensures r.Ok? ==> r.value.metadata.Keys == set v | v in required
    ensures r.Ok? ==> forall v :: v in r.value.metadata ==>
                        r.value.metadata[v] == r.value.parser.attrs[v].s && !IsBlank(r.value.metadata[v])
    ensures f.loaded.Executed? && f.loaded.parser.None? ==> r == Err(ValueError)
    ensures f.loaded.Executed? && f.loaded.parser.Some? && !f.loaded.parser.value.hasParse ==> r == Err(TypeError)
    ensures f.loaded.NoLoader? ==> r == Err(ImportError)
  {
    match f.loaded
    case NoLoader => Err(ImportError)
    case Raised(e) => Err(e)
    case Executed(p) =>
      if p.None? then Err(ValueError)
      else if !p.value.hasParse then Err(TypeError)
      else if !(forall v :: v in required ==> ValidVariable(p.value, v)) then Err(ImportError)
      else
        var c := p.value;
        Ok(Plugin(Stem(f.name), c, map v | v in required :: c.attrs[v].s))
  }

  /**
   * The validation step of `load_plugin`: a conforming `Parser` loads
   * exactly when `validate_parser_class` passes, and its ValueError is
   * re-raised as ImportError.
   */
  lemma LoadPluginValidates(f: PluginFile, required: seq<string>)
    requires f.loaded.Executed? && f.loaded.parser.Some? && f.loaded.parser.value.hasParse
    ensures LoadPlugin(f, required).Ok? <==> ValidateParserClass(f.loaded.parser.value, required).Ok?
    ensures ValidateParserClass(f.loaded.parser.value, required).Err? ==> LoadPlugin(f, required) == Err(ImportError)
  {
  }

  /** The two maps a `PluginManager` holds once loaded. */
  datatype Registry = Registry(plugins: map<string, ParserClass>, metadata: map<string, map<string, string>>)

  /** What `load_plugins` leaves behind after visiting `files` in order, starting from empty maps. */
  function LoadAll(files: seq<PluginFile>, required: seq<string>): (g: Registry)
    ensures g.plugins.Keys == g.metadata.Keys
  {
    if files == [] then Registry(map[], map[])
    else
      var g := LoadAll(files[..|files| - 1], required);
      var r := LoadPlugin(files[|files| - 1], required);
      if r.Err? then g
      else Registry(g.plugins[r.value.name := r.value.parser], g.metadata[r.value.name := r.value.metadata])
  }

  lemma LoadAllStep(files: seq<PluginFile>, i: nat, required: seq<string>)
    requires i < |files|
    ensures LoadAll(files[..i + 1], required)
            == (var g := LoadAll(files[..i], required);
                var r := LoadPlugin(files[i], required);
                if r.Err? then g
                else Registry(g.plugins[r.value.name := r.value.parser], g.metadata[r.value.name := r.value.metadata]))
  {
    assert files[..i + 1][..i] == files[..i];
  }

  /** A file that fails to load changes nothing: the files after it load as if it were absent. */
  lemma {:induction false} FailedFileSkipped(before: seq<PluginFile>, bad: PluginFile, after: seq<PluginFile>,
                                             required: seq<string>)
    requires LoadPlugin(bad, required).Err?
    ensures LoadAll(before + [bad] + after, required) == LoadAll(before + after, required)
    decreases |after|
  {
    if after == [] {
      assert before + [bad] + after == before + [bad];
      assert (before + [bad])[..|before|] == before;
      assert before + after == before;
    } else {
      var a' := after[..|after| - 1];
      var x := after[|after| - 1];
      assert before + [bad] + after == (before + [bad] + a') + [x];
      assert (before + [bad] + after)[..|before + [bad] + after| - 1] == before + [bad] + a';
      assert before + after == (before + a') + [x];
      assert (before + after)[..|before + after| - 1] == before + a';
      FailedFileSkipped(before, bad, a', required);
    }
  }

  /** A name is registered iff some file loads under that name. */
  lemma {:induction false} LoadAllNames(files: seq<PluginFile>, required: seq<string>, name: string)
    ensures name in LoadAll(files, required).plugins
            <==> exists k :: 0 <= k < |files| && LoadPlugin(files[k], required).Ok?
                             && LoadPlugin(files[k], required).value.name == name
  {
    if files != [] {
      var p := files[..|files| - 1];
      LoadAllNames(p, required, name);
      assert forall k :: 0 <= k < |p| ==> p[k] == files[k];
    }
  }

  /** Of several files loading under one name, the last one visited is the one kept. */
  lemma {:induction false} LastLoadWins(files: seq<PluginFile>, required: seq<string>, k: nat)
    requires k < |files| && LoadPlugin(files[k], required).Ok?
    requires forall j :: k < j < |files| && LoadPlugin(files[j], required).Ok?
                         ==> LoadPlugin(files[j], required).value.name != LoadPlugin(files[k], required).value.name
    ensures var loaded := LoadPlugin(files[k], required).value;
            var g := LoadAll(files, required);
            loaded.name in g.plugins && g.plugins[loaded.name] == loaded.parser
            && g.metadata[loaded.name] == loaded.metadata
  {
    if k < |files| - 1 {
      var p := files[..|files| - 1];
      assert p[k] == files[k];
      assert forall j :: k < j < |p| ==> p[j] == files[j];
      LastLoadWins(p, required, k);
    } else {
      assert files[..k + 1] == files;
      LoadAllStep(files, k, required);
    }
  }

  /** `PluginManager`: the loaded parser classes and their metadata, keyed by plugin name. */
  class PluginManager {
    /** `None` until `load_plugins` runs. */
    var plugins: Option<map<string, ParserClass>>
    var metadata: Option<map<string, map<string, string>>>

    constructor()
      ensures plugins.None? && metadata.None?
    {
      plugins := None;
      metadata := None;
    }

    /**
     * `load_plugins()`: reset both maps, then load each file of the plugin
     * directory in the order given, logging and skipping the ones that fail.
     */
    method LoadPlugins(files: seq<PluginFile>, required: seq<string>)
      modifies this
      ensures plugins == Some(LoadAll(files, required).plugins)
      ensures metadata == Some(LoadAll(files, required).metadata)
      ensures plugins.value.Keys == metadata.value.Keys
    {
      plugins := Some(map[]);
      metadata := Some(map[]);
      var i := 0;
      while i < |files|
        invariant 0 <= i <= |files|
        invariant plugins == Some(LoadAll(files[..i], required).plugins)
        invariant metadata == Some(LoadAll(files[..i], required).metadata)
      {
        LoadAllStep(files, i, required);
        var r := LoadPlugin(files[i], required);
        if r.Ok? {
          plugins := Some(plugins.value[r.value.name := r.value.parser]);
          metadata := Some(metadata.value[r.value.name := r.value.metadata]);
        }
        i := i + 1;
      }
      assert files[..i] == files;
    }

    /**
     * `get_parser(plugin_name)`: the loaded class, ImportError for a name
     * that is not loaded, AttributeError before any load.
     */
    method GetParser(name: string) returns (r: Result<ParserClass>)
      ensures plugins.None? ==> r == Err(AttributeError)
      ensures plugins.Some? && name in plugins.value ==> r == Ok(plugins.value[name])
      ensures plugins.Some? && name !in plugins.value ==> r == Err(ImportError)
    {
      if plugins.None? {
        return Err(AttributeError);
      }
      if name in plugins.value {
        r := Ok(plugins.value[name]);
      } else {
        r := Err(ImportError);
      }
    }
  }
}
