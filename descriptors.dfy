/** Argument descriptors: the record that describes one declared option, and
    the dynamically typed values that the name-to-value store holds. */
module Descriptors {
  import opened Options

  /** A value held in the store. The store is keyed by name and holds a string,
      an int, a bool or a float64; the float is kept opaque because it is only
      ever stored, never parsed. */
  datatype Value = VStr(s: string) | VInt(i: int) | VBool(b: bool) | VFloat

  /** The part of a descriptor that differs between the four argument records:
      string and int arguments carry a default of their own type, a flag
      carries none, and the float's default is not modelled. */
  datatype Kind = StringKind(stringDefault: string) | IntKind(intDefault: int) | FlagKind | FloatKind

  /** The shared base record (name, short, help, group) together with the kind. */
  datatype Descriptor = Descriptor(name: string, short: string, help: string, group: string, kind: Kind)
  {
    function GetName(): string { name }
    function GetShort(): string { short }
    function GetGroup(): string { group }
    function GetHelp(): string { help }
  }

  /** The default a descriptor carries, if its kind carries one. */
  function DefaultOf(k: Kind): Option<Value>
  {
    match k
    case StringKind(s) => Some(VStr(s))
    case IntKind(i) => Some(VInt(i))
    case FlagKind => None
    case FloatKind => None
  }

  /** True when the dynamic type of `v` is the type that kind `k` stores. */
  predicate HasKind(v: Value, k: Kind)
  {
    match k
    case StringKind(_) => v.VStr?
    case IntKind(_) => v.VInt?
    case FlagKind => v.VBool?
    case FloatKind => v.VFloat?
  }

  /** True when two values have the same dynamic type. */
  predicate SameType(v: Value, w: Value)
  {
    (v.VStr? && w.VStr?) || (v.VInt? && w.VInt?) || (v.VBool? && w.VBool?) || (v.VFloat? && w.VFloat?)
  }

  function StringArgument(name: string, short: string, help: string, group: string, defaultValue: string): Descriptor
  {
    Descriptor(name, short, help, group, StringKind(defaultValue))
  }

  function IntArgument(name: string, short: string, help: string, group: string, defaultValue: int): Descriptor
  {
    Descriptor(name, short, help, group, IntKind(defaultValue))
  }

  function FlagArgument(name: string, short: string, help: string, group: string): Descriptor
  {
    Descriptor(name, short, help, group, FlagKind)
  }

  function Float32Argument(name: string, short: string, help: string, group: string): Descriptor
  {
    Descriptor(name, short, help, group, FloatKind)
  }

  /** The type switch that builds a descriptor from a declared default:
      the default's dynamic type decides the kind, and a string or int
      default is kept inside the descriptor. */
  function NewDescriptor(name: string, short: string, help: string, group: string, v: Value): (d: Descriptor)
    ensures d.GetName() == name && d.GetShort() == short && d.GetHelp() == help && d.GetGroup() == group
    ensures HasKind(v, d.kind)
    ensures v.VStr? || v.VInt? ==> DefaultOf(d.kind) == Some(v)
    ensures v.VBool? || v.VFloat? ==> DefaultOf(d.kind) == None
  {
    match v
    case VBool(_) => FlagArgument(name, short, help, group)
    case VFloat => Float32Argument(name, short, help, group)
    case VInt(i) => IntArgument(name, short, help, group, i)
    case VStr(s) => StringArgument(name, short, help, group, s)
  }

  /** Every argument record embeds the same base record, and its four
      getters return that record's fields unchanged, whatever the kind. */
  lemma GettersReturnBaseFields(name: string, short: string, help: string, group: string, s: string, i: int)
    ensures forall d | d in [StringArgument(name, short, help, group, s), IntArgument(name, short, help, group, i),
                             FlagArgument(name, short, help, group), Float32Argument(name, short, help, group)] ::
              d.GetName() == name && d.GetShort() == short && d.GetHelp() == help && d.GetGroup() == group
  {
  }

  /** String and int records carry a default of their own type; a flag record carries none. */
  lemma DefaultsFollowTheKind(name: string, short: string, help: string, group: string, s: string, i: int)
    ensures DefaultOf(StringArgument(name, short, help, group, s).kind) == Some(VStr(s))
    ensures DefaultOf(IntArgument(name, short, help, group, i).kind) == Some(VInt(i))
    ensures DefaultOf(FlagArgument(name, short, help, group).kind) == None
  {
  }

  /** The kind check depends only on the dynamic type of the value. */
  lemma HasKindIsTypeOnly(v: Value, w: Value, k: Kind)
    requires SameType(v, w)
    ensures HasKind(v, k) <==> HasKind(w, k)
  {
  }
}
