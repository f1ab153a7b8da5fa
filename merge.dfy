/**
 * The merge decorator: a command's arguments are resolved from the explicit command-line value,
 * then the command's section of the configuration, then the declared default, then None.
 * Python values are `Arg<V>`, where `None` is Python's None and `Some(v)` any other value.
 */
module Merge {
  import opened Wrappers

  /** A Python value: None, or some other value of type V. */
  type Arg<V> = Option<V>

  /** inspect.Parameter.kind */
  datatype Kind = PositionalOnly | PositionalOrKeyword | VarPositional | KeywordOnly | VarKeyword

  /** An inspect.Parameter; a `default` of None stands for inspect._empty (no default declared). */
  datatype Param<V> = Param(name: string, kind: Kind, default: Option<Arg<V>>)

  /** The parameter names of a signature. */
  function Names<V>(params: seq<Param<V>>): set<string> {
    set i | 0 <= i < |params| :: params[i].name
  }

  /** Python refuses a signature that repeats a parameter name. */
  predicate UniqueNames<V>(params: seq<Param<V>>) {
    forall i, j :: 0 <= i < j < |params| ==> params[i].name != params[j].name
  }

  // ================================================================ declared_defaults

  /** {name: param.default for name, param in parameters if param.default is not _empty} */
  function DeclaredDefaults<V>(params: seq<Param<V>>): (d: map<string, Arg<V>>)
    ensures d.Keys <= Names(params)
  {
    if params == [] then map[]
    else
      var n := |params| - 1;
      var earlier := DeclaredDefaults(params[..n]);
      assert Names(params[..n]) <= Names(params) by {
        forall k | k in Names(params[..n]) ensures k in Names(params) {
          var i :| 0 <= i < n && params[..n][i].name == k;
          assert params[i].name == k;
        }
      }
      if params[n].default.Some? then earlier[params[n].name := params[n].default.value] else earlier
  }

  /** declared_defaults holds exactly the parameters that declared a default, each with that default. */
  lemma {:induction false} DeclaredDefaultsExactly<V>(params: seq<Param<V>>, i: nat)
    requires UniqueNames(params) && i < |params|
    ensures params[i].name in DeclaredDefaults(params) <==> params[i].default.Some?
    ensures params[i].default.Some? ==> DeclaredDefaults(params)[params[i].name] == params[i].default.value
  {
    var n := |params| - 1;
    if i < n {
      assert UniqueNames(params[..n]);
      assert params[..n][i] == params[i];
      DeclaredDefaultsExactly(params[..n], i);
      assert params[n].name != params[i].name;
    } else {
      forall j | 0 <= j < n ensures params[..n][j].name != params[i].name {
        assert params[..n][j] == params[j];
      }
      assert params[i].name !in Names(params[..n]);
    }
  }

  // ================================================================ the advertised signature

  /** Whether the advertised signature keeps the parameter as declared. */
  predicate KeepsDefault(kind: Kind) {
    kind == VarPositional || kind == VarKeyword || kind == PositionalOnly
  }

  /** The loop building new_params: every parameter defaults to None except *args, **kwargs and positional-only ones. */
  method NewParams<V>(params: seq<Param<V>>) returns (newParams: seq<Param<V>>)
    ensures |newParams| == |params|
    ensures forall i :: 0 <= i < |params| ==>
      newParams[i].name == params[i].name && newParams[i].kind == params[i].kind
    ensures forall i :: 0 <= i < |params| ==>
      newParams[i].default == if KeepsDefault(params[i].kind) then params[i].default else Some(None)
  {
    newParams := [];
    for i := 0 to |params|
      invariant |newParams| == i
      invariant forall j :: 0 <= j < i ==>
        newParams[j].name == params[j].name && newParams[j].kind == params[j].kind
      invariant forall j :: 0 <= j < i ==>
        newParams[j].default == if KeepsDefault(params[j].kind) then params[j].default else Some(None)
    {
      var param := params[i];
      if KeepsDefault(param.kind) {
        newParams := newParams + [param];
      } else {
        newParams := newParams + [param.(default := Some(None))];
      }
    }
  }

  // ================================================================ the configuration section

  /** The module global config_data: absent, a dict of TOML tables, or some other value. */
  datatype Config<V> = Missing | Dict(sections: map<string, map<string, Arg<V>>>) | NotADict

  /** section or func.__name__: an empty section string is falsy and gives way to the function name. */
  function SectionKey(section: Option<string>, funcName: string): (key: string)
    ensures section.Some? && section.value != "" ==> key == section.value
    ensures section.None? || section.value == "" ==> key == funcName
  {
    match section
    case Some(s) => if s != "" then s else funcName
    case None => funcName
  }

  /** config_data.get(section_key, {}) if config_data is a dict, else {}; a missing global reads as {}. */
  function Section<V>(config: Config<V>, key: string): (s: map<string, Arg<V>>)
    ensures config.Dict? && key in config.sections ==> s == config.sections[key]
    ensures !(config.Dict? && key in config.sections) ==> s == map[]
  {
    match config
    case Dict(sections) => if key in sections then sections[key] else map[]
    case _ => map[]
  }

  // ================================================================ resolution

  /** The value the wrapper's loop settles on for one parameter name. */
  function Resolve<V>(name: string, bound: map<string, Arg<V>>, section: map<string, Arg<V>>, defaults: map<string, Arg<V>>): Arg<V> {
    if name in bound && bound[name].Some? then bound[name]
    else if name in section then section[name]
    else if name in defaults then defaults[name]
    else None
  }

  /** final_args: the parameters in order, each name mapped to its resolved value. */
  function Merged<V>(params: seq<Param<V>>, bound: map<string, Arg<V>>, section: map<string, Arg<V>>, defaults: map<string, Arg<V>>): map<string, Arg<V>> {
    if params == [] then map[]
    else
      var n := |params| - 1;
      Merged(params[..n], bound, section, defaults)[params[n].name := Resolve(params[n].name, bound, section, defaults)]
  }

  /** The resolved map has exactly the parameter names as keys, each with its resolved value. */
  lemma {:induction false} MergedEntries<V>(params: seq<Param<V>>, bound: map<string, Arg<V>>, section: map<string, Arg<V>>, defaults: map<string, Arg<V>>)
    ensures Merged(params, bound, section, defaults).Keys == Names(params)
    ensures forall k :: k in Merged(params, bound, section, defaults) ==>
      Merged(params, bound, section, defaults)[k] == Resolve(k, bound, section, defaults)
  {
    if params != [] {
      var n := |params| - 1;
      MergedEntries(params[..n], bound, section, defaults);
      assert Names(params) == Names(params[..n]) + {params[n].name} by {
        forall k | k in Names(params) ensures k in Names(params[..n]) + {params[n].name} {
          var i :| 0 <= i < |params| && params[i].name == k;
          if i < n {
            assert params[..n][i].name == k;
          }
        }
        forall k | k in Names(params[..n]) ensures k in Names(params) {
          var i :| 0 <= i < n && params[..n][i].name == k;
          assert params[i].name == k;
        }
      }
    }
  }

  /**
   * The precedence of merge: an explicit non-None argument always wins; otherwise a key of the
   * configuration section, even over a declared default; otherwise the declared default; otherwise None.
   */
  lemma Precedence<V>(params: seq<Param<V>>, bound: map<string, Arg<V>>, section: map<string, Arg<V>>, defaults: map<string, Arg<V>>, k: string)
    requires k in Names(params)
    ensures var m := Merged(params, bound, section, defaults);
      && k in m
      && (k in bound && bound[k].Some? ==> m[k] == bound[k])
      && ((k !in bound || bound[k].None?) && k in section ==> m[k] == section[k])
      && ((k !in bound || bound[k].None?) && k !in section && k in defaults ==> m[k] == defaults[k])
      && ((k !in bound || bound[k].None?) && k !in section && k !in defaults ==> m[k] == None)
  {
    MergedEntries(params, bound, section, defaults);
  }

  /** Passing None explicitly is the same as passing nothing. */
  lemma {:induction false} ExplicitNoneIsAbsent<V>(params: seq<Param<V>>, bound: map<string, Arg<V>>, section: map<string, Arg<V>>, defaults: map<string, Arg<V>>, k: string)
    ensures Merged(params, bound[k := None], section, defaults) == Merged(params, bound - {k}, section, defaults)
  {
    if params != [] {
      var n := |params| - 1;
      ExplicitNoneIsAbsent(params[..n], bound, section, defaults, k);
      var name := params[n].name;
      assert Resolve(name, bound[k := None], section, defaults) == Resolve(name, bound - {k}, section, defaults);
    }
  }

  /** Configuration keys that name no parameter play no part. */
  lemma {:induction false} UnknownConfigIgnored<V>(params: seq<Param<V>>, bound: map<string, Arg<V>>, section: map<string, Arg<V>>, defaults: map<string, Arg<V>>)
    ensures Merged(params, bound, section, defaults) ==
      Merged(params, bound, map k | k in section && k in Names(params) :: section[k], defaults)
  {
    MergedEntries(params, bound, section, defaults);
    var known := map k | k in section && k in Names(params) :: section[k];
    MergedEntries(params, bound, known, defaults);
    var m, m' := Merged(params, bound, section, defaults), Merged(params, bound, known, defaults);
    forall k | k in m ensures m[k] == m'[k] {
      assert Resolve(k, bound, section, defaults) == Resolve(k, bound, known, defaults);
    }
  }

  /** The wrapper's loop over the parameters, filling final_args one name at a time. */
  method ResolveArgs<V>(params: seq<Param<V>>, bound: map<string, Arg<V>>, section: map<string, Arg<V>>, defaults: map<string, Arg<V>>)
    returns (finalArgs: map<string, Arg<V>>)
    ensures finalArgs == Merged(params, bound, section, defaults)
  {
    finalArgs := map[];
    for i := 0 to |params|
      invariant finalArgs == Merged(params[..i], bound, section, defaults)
    {
      assert params[..i + 1][..i] == params[..i];
      var name := params[i].name;
      var val := if name in bound then bound[name] else None;
      if val.Some? {
        finalArgs := finalArgs[name := val];
        continue;
      }
      if name in section {
        finalArgs := finalArgs[name := section[name]];
        continue;
      }
      if name in defaults {
        finalArgs := finalArgs[name := defaults[name]];
      } else {
        finalArgs := finalArgs[name := None];
      }
    }
    assert params[..|params|] == params;
  }

  // ================================================================ the decorator

  /** What merge(section)(func) keeps: the original signature, declared_defaults and the advertised signature. */
  datatype Decorated<V> = Decorated(section: Option<string>, funcName: string, params: seq<Param<V>>,
    declaredDefaults: map<string, Arg<V>>, signature: seq<Param<V>>)

  /** decorator(func) */
  method Decorate<V>(section: Option<string>, funcName: string, params: seq<Param<V>>) returns (d: Decorated<V>)
    ensures d.section == section && d.funcName == funcName && d.params == params
    ensures d.declaredDefaults == DeclaredDefaults(params)
    ensures |d.signature| == |params|
    ensures forall i :: 0 <= i < |params| ==>
      d.signature[i].name == params[i].name && d.signature[i].kind == params[i].kind
    ensures forall i :: 0 <= i < |params| ==>
      d.signature[i].default == if KeepsDefault(params[i].kind) then params[i].default else Some(None)
  {
    var signature := NewParams(params);
    d := Decorated(section, funcName, params, DeclaredDefaults(params), signature);
  }

  /** wrapper(*args, **kwargs), given the bound arguments: the keyword arguments func is called with. */
  method Wrapper<V>(d: Decorated<V>, config: Config<V>, bound: map<string, Arg<V>>) returns (finalArgs: map<string, Arg<V>>)
    ensures finalArgs == Merged(d.params, bound, Section(config, SectionKey(d.section, d.funcName)), d.declaredDefaults)
  {
    var sectionKey := SectionKey(d.section, d.funcName);
    var configSection := Section(config, sectionKey);
    finalArgs := ResolveArgs(d.params, bound, configSection, d.declaredDefaults);
  }
}
