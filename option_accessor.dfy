/**
 * Pigeon::OptionAccessor: options declared on a class, readable and
 * writable on the class, its subclasses and their instances. A value set
 * on a class propagates to its subclasses and instances until one of them
 * sets its own; only nil falls through to the next level.
 *
 * The classes of a program form a forest: each class names its superclass
 * by an index smaller than its own, and a class with no superclass here
 * stands for one whose superclass (such as `Object`) has no option readers.
 */
module Options {
  import opened Wrappers

  /** A Ruby value an option can hold; nil is `None` in an `Option<Value>`. */
  datatype Value = Sym(name: string) | Int(i: int) | Bool(b: bool)

  /** Raised when a reader or writer the class does not define is called. */
  datatype OptionError = NoMethodError

  /**
   * One class: its superclass, the options it declared readers for (each
   * mapped to whether a `name?` reader was ever defined), the options it
   * declared writers for (each with its latest `boolean:` flag), and its
   * instance variables (a variable set to nil maps to `None`).
   */
  datatype ClassRecord = ClassRecord(superclass: Option<nat>, readers: map<string, bool>,
                                     writers: map<string, bool>, ivars: map<string, Option<Value>>)

  /** An instance: its class and its own instance variables. */
  datatype InstanceRecord = InstanceRecord(cls: nat, ivars: map<string, Option<Value>>)

  /** Every superclass is declared before its subclasses. */
  ghost predicate WellFormed(h: seq<ClassRecord>)
  {
    forall i :: 0 <= i < |h| && h[i].superclass.Some? ==> h[i].superclass.value < i
  }

  /** `instance_variable_get`: nil when unset. */
  function Get(ivars: map<string, Option<Value>>, name: string): (r: Option<Value>)
    ensures name !in ivars ==> r.None?
  {
    if name in ivars then ivars[name] else None
  }

  /** Ruby truthiness: everything but nil and false. */
  predicate Truthy(v: Option<Value>)
  {
    v.Some? && v.value != Bool(false)
  }

  /** `a` is `c` or one of its superclasses. */
  ghost predicate IsAncestor(h: seq<ClassRecord>, a: nat, c: nat)
    requires WellFormed(h) && c < |h|
    decreases c
  {
    a == c || (h[c].superclass.Some? && IsAncestor(h, a, h[c].superclass.value))
  }

  /** `c.respond_to?(name)`: `c` or a superclass declared a reader for `name`. */
  predicate RespondsTo(h: seq<ClassRecord>, c: nat, name: string)
    requires WellFormed(h) && c < |h|
    decreases c
  {
    name in h[c].readers || (h[c].superclass.Some? && RespondsTo(h, h[c].superclass.value, name))
  }

  /** `c.respond_to?(:"#{name}?")`: `c` or a superclass declared a boolean reader for `name`. */
  predicate RespondsToQuery(h: seq<ClassRecord>, c: nat, name: string)
    requires WellFormed(h) && c < |h|
    decreases c
  {
    (name in h[c].readers && h[c].readers[name]) ||
    (h[c].superclass.Some? && RespondsToQuery(h, h[c].superclass.value, name))
  }

  /**
   * The class-level reader (option_accessor.rb:37-41): the class's own
   * value unless it is nil; then the superclass's reader when the
   * superclass has one; otherwise nil.
   */
  function ClassValue(h: seq<ClassRecord>, c: nat, name: string): (r: Option<Value>)
    requires WellFormed(h) && c < |h|
    ensures Get(h[c].ivars, name).Some? ==> r == Get(h[c].ivars, name)
    ensures r.Some? && Get(h[c].ivars, name).None? ==>
      h[c].superclass.Some? && RespondsTo(h, h[c].superclass.value, name)
    decreases c
  {
    var own := Get(h[c].ivars, name);
    if own.Some? then own
    else if h[c].superclass.Some? && RespondsTo(h, h[c].superclass.value, name) then
      ClassValue(h, h[c].superclass.value, name)
    else None
  }

  /** The instance-level reader (option_accessor.rb:44-48): its own value unless nil, else the class's. */
  function InstanceValue(h: seq<ClassRecord>, inst: InstanceRecord, name: string): (r: Option<Value>)
    requires WellFormed(h) && inst.cls < |h|
    ensures Get(inst.ivars, name).Some? ==> r == Get(inst.ivars, name)
    ensures Get(inst.ivars, name).None? ==> r == ClassValue(h, inst.cls, name)
  {
    var own := Get(inst.ivars, name);
    if own.Some? then own else ClassValue(h, inst.cls, name)
  }

  /** What a boolean writer stores (option_accessor.rb:75-78, 86-89): nil for nil, else the truthiness. */
  function Coerce(v: Option<Value>): (r: Option<Value>)
    ensures v.None? <==> r.None?
    ensures r.Some? ==> r.value == Bool(Truthy(v)) && (Truthy(r) <==> Truthy(v))
  {
    if v.None? then None else Some(Bool(Truthy(v)))
  }

  /** The writer `c.name=` or `instance.name=` finds: the nearest declaration's `boolean:` flag. */
  function WriterFlag(h: seq<ClassRecord>, c: nat, name: string): (r: Option<bool>)
    requires WellFormed(h) && c < |h|
    ensures name in h[c].writers ==> r == Some(h[c].writers[name])
    ensures name !in h[c].writers && h[c].superclass.None? ==> r.None?
    decreases c
  {
    if name in h[c].writers then Some(h[c].writers[name])
    else if h[c].superclass.Some? then WriterFlag(h, h[c].superclass.value, name)
    else None
  }

  /** The value a writer with flag `boolean` stores for `v`. */
  function Stored(boolean: bool, v: Option<Value>): Option<Value>
  {
    if boolean then Coerce(v) else v
  }

  /** `c.name`: the class reader, or NoMethodError when neither `c` nor a superclass declared one. */
  function ReadClass(h: seq<ClassRecord>, c: nat, name: string): (r: Result<Option<Value>, OptionError>)
    requires WellFormed(h) && c < |h|
    ensures r.Failure? <==> !RespondsTo(h, c, name)
    ensures r.Success? ==> r.value == ClassValue(h, c, name)
  {
    if RespondsTo(h, c, name) then Success(ClassValue(h, c, name)) else Failure(NoMethodError)
  }

  /** `c.name?` (option_accessor.rb:29-35): the truthiness of the class reader's answer. */
  function QueryClass(h: seq<ClassRecord>, c: nat, name: string): (r: Result<bool, OptionError>)
    requires WellFormed(h) && c < |h|
    ensures r.Failure? <==> !RespondsToQuery(h, c, name)
    ensures r.Success? ==> (r.value <==> Truthy(ClassValue(h, c, name)))
  {
    if RespondsToQuery(h, c, name) then Success(Truthy(ClassValue(h, c, name))) else Failure(NoMethodError)
  }

  /** `instance.name`. */
  function ReadInstance(h: seq<ClassRecord>, inst: InstanceRecord, name: string): (r: Result<Option<Value>, OptionError>)
    requires WellFormed(h) && inst.cls < |h|
    ensures r.Failure? <==> !RespondsTo(h, inst.cls, name)
    ensures r.Success? ==> r.value == InstanceValue(h, inst, name)
  {
    if RespondsTo(h, inst.cls, name) then Success(InstanceValue(h, inst, name)) else Failure(NoMethodError)
  }

  /** `instance.name?` (option_accessor.rb:50-56). */
  function QueryInstance(h: seq<ClassRecord>, inst: InstanceRecord, name: string): (r: Result<bool, OptionError>)
    requires WellFormed(h) && inst.cls < |h|
    ensures r.Failure? <==> !RespondsToQuery(h, inst.cls, name)
    ensures r.Success? ==> (r.value <==> Truthy(InstanceValue(h, inst, name)))
  {
    if RespondsToQuery(h, inst.cls, name) then Success(Truthy(InstanceValue(h, inst, name))) else Failure(NoMethodError)
  }

  /** The classes after `c` sets its instance variable for `name` to `v`. */
  function SetClassIvar(h: seq<ClassRecord>, c: nat, name: string, v: Option<Value>): (r: seq<ClassRecord>)
    requires c < |h|
    ensures |r| == |h| && r[c].ivars == h[c].ivars[name := v]
    ensures forall i :: 0 <= i < |h| && i != c ==> r[i] == h[i]
    ensures forall i :: 0 <= i < |h| ==> r[i].superclass == h[i].superclass && r[i].readers == h[i].readers &&
                                         r[i].writers == h[i].writers
  {
    h[c := h[c].(ivars := h[c].ivars[name := v])]
  }

  // ---------------------------------------------------------------------
  // Properties of the readers
  // ---------------------------------------------------------------------

  /**
   * Only nil falls through: a class whose own value is set, even to
   * `false`, answers it whatever its superclasses hold; an instance
   * likewise answers its own value.
   */
  lemma OwnValueWins(h: seq<ClassRecord>, inst: InstanceRecord, name: string, v: Value)
    requires WellFormed(h) && inst.cls < |h|
    requires Get(inst.ivars, name) == Some(v)
    ensures InstanceValue(h, inst, name) == Some(v)
    ensures Get(h[inst.cls].ivars, name) == Some(v) ==> ClassValue(h, inst.cls, name) == Some(v)
  {
  }

  /**
   * The class reader answers a non-nil value only if some class on the
   * way up (the class itself or an ancestor) holds that value.
   */
  lemma {:induction false} ClassValueComesFromAncestor(h: seq<ClassRecord>, c: nat, name: string)
    requires WellFormed(h) && c < |h|
    ensures var r := ClassValue(h, c, name);
      r.Some? ==> exists a :: 0 <= a < |h| && IsAncestor(h, a, c) && Get(h[a].ivars, name) == r
    decreases c
  {
    var r := ClassValue(h, c, name);
    if r.Some? && Get(h[c].ivars, name).None? {
      var s := h[c].superclass.value;
      ClassValueComesFromAncestor(h, s, name);
      var a :| 0 <= a < |h| && IsAncestor(h, a, s) && Get(h[a].ivars, name) == r;
      assert IsAncestor(h, a, c);
    }
  }

  /**
   * A write to one class's variable leaves the reader of every class that
   * does not descend from it unchanged: a subclass write never reaches its
   * superclass, and another name is never affected.
   */
  lemma {:induction false} WriteStaysBelow(h: seq<ClassRecord>, c: nat, name: string, v: Option<Value>, d: nat, other: string)
    requires WellFormed(h) && c < |h| && d < |h|
    ensures WellFormed(SetClassIvar(h, c, name, v))
    ensures !IsAncestor(h, c, d) ==> ClassValue(SetClassIvar(h, c, name, v), d, name) == ClassValue(h, d, name)
    ensures other != name ==> ClassValue(SetClassIvar(h, c, name, v), d, other) == ClassValue(h, d, other)
    decreases d
  {
    var h' := SetClassIvar(h, c, name, v);
    RespondsUnchanged(h, h', d, name);
    RespondsUnchanged(h, h', d, other);
    if h[d].superclass.Some? {
      var s := h[d].superclass.value;
      WriteStaysBelow(h, c, name, v, s, other);
      RespondsUnchanged(h, h', s, name);
      RespondsUnchanged(h, h', s, other);
    }
  }

  /** Readers and superclasses alone decide `respond_to?`. */
  lemma {:induction false} RespondsUnchanged(h: seq<ClassRecord>, h': seq<ClassRecord>, c: nat, name: string)
    requires WellFormed(h) && c < |h| && |h'| == |h|
    requires forall i :: 0 <= i < |h| ==> h'[i].superclass == h[i].superclass && h'[i].readers == h[i].readers
    ensures WellFormed(h') && (RespondsTo(h', c, name) <==> RespondsTo(h, c, name))
    decreases c
  {
    if h[c].superclass.Some? {
      RespondsUnchanged(h, h', h[c].superclass.value, name);
    }
  }

  /**
   * Setting a subclass's value back to nil restores inheritance: it then
   * answers whatever its superclass answers.
   */
  lemma NilRestoresInheritance(h: seq<ClassRecord>, c: nat, name: string)
    requires WellFormed(h) && c < |h| && h[c].superclass.Some?
    requires RespondsTo(h, h[c].superclass.value, name)
    ensures var h' := SetClassIvar(h, c, name, None);
      WellFormed(h') && ClassValue(h', c, name) == ClassValue(h, h[c].superclass.value, name)
  {
    var s := h[c].superclass.value;
    var h' := SetClassIvar(h, c, name, None);
    WriteStaysBelow(h, c, name, None, s, name);
    RespondsUnchanged(h, h', s, name);
    assert !IsAncestor(h, c, s) by {
      AncestorIsNotBelow(h, c, s);
    }
  }

  /** A class is never an ancestor of a class declared before it. */
  lemma {:induction false} AncestorIsNotBelow(h: seq<ClassRecord>, a: nat, c: nat)
    requires WellFormed(h) && c < |h| && c < a
    ensures !IsAncestor(h, a, c)
    decreases c
  {
    if h[c].superclass.Some? {
      AncestorIsNotBelow(h, a, h[c].superclass.value);
    }
  }

  // ---------------------------------------------------------------------
  // The object space: declarations and writers
  // ---------------------------------------------------------------------

  /**
   * Whether `name?` is defined after a reader declaration with flag
   * `boolean`: a boolean declaration defines it, and a plain one leaves an
   * earlier definition in place.
   */
  function QueryKept(readers: map<string, bool>, name: string, boolean: bool): (r: bool)
    ensures boolean ==> r
    ensures name in readers && readers[name] ==> r
    ensures r ==> boolean || name in readers
  {
    boolean || (name in readers && readers[name])
  }

  /** A class record after `option_reader(*names, default:, boolean:)` (option_accessor.rb:21-60). */
  function DeclareReaders(rec: ClassRecord, names: seq<string>, default: Option<Value>, boolean: bool): (r: ClassRecord)
    ensures r.superclass == rec.superclass && r.writers == rec.writers
    ensures forall n :: n in names ==> n in r.readers && r.readers[n] == QueryKept(rec.readers, n, boolean) &&
                                       Get(r.ivars, n) == default
    ensures forall n :: n !in names ==> Get(r.ivars, n) == Get(rec.ivars, n) &&
                                        (n in r.readers <==> n in rec.readers) &&
                                        (n in rec.readers ==> r.readers[n] == rec.readers[n])
  {
    if names == [] then rec
    else
      var last := names[|names| - 1];
      var r := DeclareReaders(rec, names[..|names| - 1], default, boolean);
      assert forall n :: n in names ==> n in names[..|names| - 1] || n == last;
      r.(readers := r.readers[last := QueryKept(r.readers, last, boolean)], ivars := r.ivars[last := default])
  }

  /**
   * Declaring readers only ever defines methods: every class that answered
   * `respond_to?(name)` or `respond_to?(:"#{name}?")` before a declaration
   * on class `c` still does afterwards, whatever the declaration's flag.
   */
  lemma {:induction false} DeclaringKeepsReaders(h: seq<ClassRecord>, c: nat, names: seq<string>, default: Option<Value>,
                                                 boolean: bool, d: nat, name: string)
    requires WellFormed(h) && c < |h| && d < |h|
    ensures var h' := h[c := DeclareReaders(h[c], names, default, boolean)];
      WellFormed(h') &&
      (RespondsTo(h, d, name) ==> RespondsTo(h', d, name)) &&
      (RespondsToQuery(h, d, name) ==> RespondsToQuery(h', d, name))
    decreases d
  {
    var h' := h[c := DeclareReaders(h[c], names, default, boolean)];
    assert WellFormed(h');
    if h[d].superclass.Some? {
      DeclaringKeepsReaders(h, c, names, default, boolean, h[d].superclass.value, name);
    }
  }

  /** A class record after `option_writer(*names, boolean:)` (option_accessor.rb:67-96). */
  function DeclareWriters(rec: ClassRecord, names: seq<string>, boolean: bool): (r: ClassRecord)
    ensures r.superclass == rec.superclass && r.readers == rec.readers && r.ivars == rec.ivars
    ensures forall n :: n in names ==> n in r.writers && r.writers[n] == boolean
    ensures forall n :: n !in names ==> (n in r.writers <==> n in rec.writers) &&
                                        (n in rec.writers ==> r.writers[n] == rec.writers[n])
  {
    if names == [] then rec
    else
      var last := names[|names| - 1];
      var r := DeclareWriters(rec, names[..|names| - 1], boolean);
      assert forall n :: n in names ==> n in names[..|names| - 1] || n == last;
      r.(writers := r.writers[last := boolean])
  }

  /** A class record after `option_accessor(*names, default:, boolean:)` (option_accessor.rb:8-11). */
  function DeclareAccessors(rec: ClassRecord, names: seq<string>, default: Option<Value>, boolean: bool): (r: ClassRecord)
    ensures r.superclass == rec.superclass
    ensures forall n :: n in names ==> n in r.readers && r.readers[n] == QueryKept(rec.readers, n, boolean) &&
                                       n in r.writers && r.writers[n] == boolean && Get(r.ivars, n) == default
    ensures forall n :: n !in names ==> Get(r.ivars, n) == Get(rec.ivars, n) &&
                                        (n in rec.readers ==> n in r.readers && r.readers[n] == rec.readers[n]) &&
                                        (n in rec.writers ==> n in r.writers && r.writers[n] == rec.writers[n])
  {
    DeclareWriters(DeclareReaders(rec, names, default, boolean), names, boolean)
  }

  class ObjectSpace {
    var classes: seq<ClassRecord>
    var instances: seq<InstanceRecord>

    ghost predicate Valid()
      reads this
    {
      WellFormed(classes) && forall i :: 0 <= i < |instances| ==> instances[i].cls < |classes|
    }

    constructor ()
      ensures Valid() && classes == [] && instances == []
    {
      classes := [];
      instances := [];
    }

    /** `class C < S; extend Pigeon::OptionAccessor; end`: a class with nothing declared yet. */
    method DefineClass(superclass: Option<nat>) returns (c: nat)
      requires Valid() && (superclass.Some? ==> superclass.value < |classes|)
      modifies this
      ensures Valid() && c == |old(classes)| && instances == old(instances)
      ensures classes == old(classes) + [ClassRecord(superclass, map[], map[], map[])]
    {
      c := |classes|;
      classes := classes + [ClassRecord(superclass, map[], map[], map[])];
    }

    /** `C.new`: an instance with no variables of its own. */
    method New(c: nat) returns (i: nat)
      requires Valid() && c < |classes|
      modifies this
      ensures Valid() && i == |old(instances)| && classes == old(classes)
      ensures instances == old(instances) + [InstanceRecord(c, map[])]
    {
      i := |instances|;
      instances := instances + [InstanceRecord(c, map[])];
    }

    /** `option_reader`: for each name in turn, define the readers and set the class's default. */
    method OptionReader(c: nat, names: seq<string>, default: Option<Value>, boolean: bool)
      requires Valid() && c < |classes|
      modifies this
      ensures Valid() && instances == old(instances)
      ensures classes == old(classes)[c := DeclareReaders(old(classes)[c], names, default, boolean)]
    {
      var k := 0;
      while k < |names|
        invariant 0 <= k <= |names| && Valid() && instances == old(instances)
        invariant classes == old(classes)[c := DeclareReaders(old(classes)[c], names[..k], default, boolean)]
      {
        var rec := classes[c];
        classes := classes[c := rec.(readers := rec.readers[names[k] := QueryKept(rec.readers, names[k], boolean)],
                                     ivars := rec.ivars[names[k] := default])];
        assert names[..k + 1][..k] == names[..k];
        k := k + 1;
      }
      assert names[..k] == names;
    }

    /** `option_writer`: for each name in turn, define the writers. */
    method OptionWriter(c: nat, names: seq<string>, boolean: bool)
      requires Valid() && c < |classes|
      modifies this
      ensures Valid() && instances == old(instances)
      ensures classes == old(classes)[c := DeclareWriters(old(classes)[c], names, boolean)]
    {
      var k := 0;
      while k < |names|
        invariant 0 <= k <= |names| && Valid() && instances == old(instances)
        invariant classes == old(classes)[c := DeclareWriters(old(classes)[c], names[..k], boolean)]
      {
        var rec := classes[c];
        classes := classes[c := rec.(writers := rec.writers[names[k] := boolean])];
        assert names[..k + 1][..k] == names[..k];
        k := k + 1;
      }
      assert names[..k] == names;
    }

    /** `option_accessor`: `option_reader` then `option_writer` with the same names and options. */
    method OptionAccessor(c: nat, names: seq<string>, default: Option<Value>, boolean: bool)
      requires Valid() && c < |classes|
      modifies this
      ensures Valid() && instances == old(instances)
      ensures classes == old(classes)[c := DeclareAccessors(old(classes)[c], names, default, boolean)]
    {
      OptionReader(c, names, default, boolean);
      OptionWriter(c, names, boolean);
    }

    /** `C.name = v`: stores `v` (coerced when the writer is boolean) on the class itself. */
    method WriteClass(c: nat, name: string, v: Option<Value>) returns (r: Result<Option<Value>, OptionError>)
      requires Valid() && c < |classes|
      modifies this
      ensures Valid() && instances == old(instances)
      ensures r.Failure? <==> WriterFlag(old(classes), c, name).None?
      ensures r.Failure? ==> classes == old(classes)
      ensures r.Success? ==> (r.value == v &&
        classes == SetClassIvar(old(classes), c, name, Stored(WriterFlag(old(classes), c, name).value, v)))
    {
      var flag := WriterFlag(classes, c, name);
      if flag.None? {
        return Failure(NoMethodError);
      }
      classes := SetClassIvar(classes, c, name, Stored(flag.value, v));
      r := Success(v);
    }

    /** `instance.name = v`: stores `v` (coerced when the writer is boolean) on the instance only. */
    method WriteInstance(i: nat, name: string, v: Option<Value>) returns (r: Result<Option<Value>, OptionError>)
      requires Valid() && i < |instances|
      modifies this
      ensures Valid() && classes == old(classes) && |instances| == |old(instances)|
      ensures forall j :: 0 <= j < |instances| && j != i ==> instances[j] == old(instances)[j]
      ensures r.Failure? <==> WriterFlag(classes, old(instances)[i].cls, name).None?
      ensures r.Failure? ==> instances == old(instances)
      ensures r.Success? ==> (r.value == v &&
        instances[i] == old(instances)[i].(ivars := old(instances)[i].ivars[
          name := Stored(WriterFlag(classes, old(instances)[i].cls, name).value, v)]))
    {
      var inst := instances[i];
      var flag := WriterFlag(classes, inst.cls, name);
      if flag.None? {
        return Failure(NoMethodError);
      }
      instances := instances[i := inst.(ivars := inst.ivars[name := Stored(flag.value, v)])];
      r := Success(v);
    }
  }

  // ---------------------------------------------------------------------
  // The classes of the option tests
  // ---------------------------------------------------------------------

  /** A class with nothing declared, below `superclass`. */
  function Bare(superclass: Option<nat>): ClassRecord
  {
    ClassRecord(superclass, map[], map[], map[])
  }

  /** `name` has a plain (non-boolean) reader and writer on `rec`. */
  ghost predicate PlainAccessor(rec: ClassRecord, name: string)
  {
    name in rec.readers && !rec.readers[name] && name in rec.writers && !rec.writers[name]
  }

  /** `name` has a boolean reader and writer on `rec`. */
  ghost predicate BooleanAccessor(rec: ClassRecord, name: string)
  {
    name in rec.readers && rec.readers[name] && name in rec.writers && rec.writers[name]
  }

  /**
   * The plain options of `OptionClass`, whatever `single_option` holds:
   * `single_option`, `multi1`, `multi2` and `option_with_default` (default
   * `:example_default`).
   */
  ghost predicate PlainOptionsShape(rec: ClassRecord)
  {
    rec.superclass == None &&
    PlainAccessor(rec, "single_option") && PlainAccessor(rec, "multi1") && PlainAccessor(rec, "multi2") &&
    PlainAccessor(rec, "option_with_default") &&
    Get(rec.ivars, "multi1") == None && Get(rec.ivars, "multi2") == None &&
    Get(rec.ivars, "option_with_default") == Some(Sym("example_default"))
  }

  /** `OptionClass` after its declarations: the plain options, and `boolean_option`, boolean and nil. */
  ghost predicate OptionClassShape(rec: ClassRecord)
  {
    PlainOptionsShape(rec) && BooleanAccessor(rec, "boolean_option") && Get(rec.ivars, "boolean_option") == None
  }

  /** The first declarations in the body of `class OptionClass`: `single_option`, `multi1` and `multi2`. */
  method DeclareMultiOptions() returns (space: ObjectSpace, base: nat)
    ensures fresh(space) && space.Valid() && space.instances == []
    ensures base == 0 && |space.classes| == 1 && space.classes[base].superclass == None
    ensures PlainAccessor(space.classes[base], "single_option") && PlainAccessor(space.classes[base], "multi1") &&
            PlainAccessor(space.classes[base], "multi2")
    ensures space.classes[base].readers.Keys == {"single_option", "multi1", "multi2"}
    ensures Get(space.classes[base].ivars, "single_option") == None &&
            Get(space.classes[base].ivars, "multi1") == None && Get(space.classes[base].ivars, "multi2") == None
  {
    space := new ObjectSpace();
    base := space.DefineClass(None);
    space.OptionAccessor(base, ["single_option"], None, false);
    ghost var single := space.classes[base];
    assert PlainAccessor(single, "single_option") && Get(single.ivars, "single_option") == None;
    space.OptionAccessor(base, ["multi1", "multi2"], None, false);
  }

  /** The plain declarations in the body of `class OptionClass`. */
  method DeclarePlainOptions() returns (space: ObjectSpace, base: nat)
    ensures fresh(space) && space.Valid() && space.instances == []
    ensures base == 0 && |space.classes| == 1
    ensures PlainOptionsShape(space.classes[base]) && Get(space.classes[base].ivars, "single_option") == None
  {
    space, base := DeclareMultiOptions();
    ghost var multi := space.classes[base];
    space.OptionAccessor(base, ["option_with_default"], Some(Sym("example_default")), false);
    ghost var defaulted := space.classes[base];
    assert PlainAccessor(defaulted, "single_option") && PlainAccessor(defaulted, "multi1") &&
           PlainAccessor(defaulted, "multi2") && PlainAccessor(defaulted, "option_with_default");
    assert Get(defaulted.ivars, "single_option") == None;
    assert Get(defaulted.ivars, "multi1") == None && Get(defaulted.ivars, "multi2") == None;
    assert Get(defaulted.ivars, "option_with_default") == Some(Sym("example_default"));
  }

  /** All the declarations in the body of `class OptionClass`. */
  method DeclareOptionClass() returns (space: ObjectSpace, base: nat)
    ensures fresh(space) && space.Valid() && space.instances == []
    ensures base == 0 && |space.classes| == 1
    ensures OptionClassShape(space.classes[base]) && Get(space.classes[base].ivars, "single_option") == None
  {
    space, base := DeclarePlainOptions();
    ghost var plain := space.classes[base];
    space.OptionAccessor(base, ["boolean_option"], None, true);
    ghost var declared := space.classes[base];
    assert "boolean_option" in ["boolean_option"];
    assert BooleanAccessor(declared, "boolean_option") && Get(declared.ivars, "boolean_option") == None;
    assert PlainOptionsShape(declared);
  }

  /**
   * `OptionClass`, which then sets `single_option` on itself, and
   * `OptionSubclass < OptionClass`, which declares nothing.
   */
  method OptionClasses() returns (space: ObjectSpace, base: nat, sub: nat)
    ensures fresh(space) && space.Valid() && space.instances == []
    ensures base == 0 && sub == 1 && |space.classes| == 2
    ensures OptionClassShape(space.classes[base])
    ensures Get(space.classes[base].ivars, "single_option") == Some(Sym("single_option_default"))
    ensures space.classes[sub] == Bare(Some(base))
  {
    space, base := DeclareOptionClass();
    ghost var declared := space.classes[base];
    assert WriterFlag(space.classes, base, "single_option") == Some(false);
    var r := space.WriteClass(base, "single_option", Some(Sym("single_option_default")));
    assert space.classes[base] == declared.(ivars := declared.ivars["single_option" := Some(Sym("single_option_default"))]);
    sub := space.DefineClass(Some(base));
  }

  /**
   * Class and instance chaining: an instance follows its class until it
   * sets its own value, and its own value never reaches the class.
   */
  method ClassAndInstanceChaining() returns (before: Option<Value>, followed: Option<Value>,
                                              overridden: Option<Value>, classAfter: Option<Value>)
    ensures before == Some(Sym("single_option_default"))
    ensures followed == Some(Sym("new_default"))
    ensures overridden == Some(Sym("override")) && classAfter == Some(Sym("new_default"))
  {
    var space, base, sub := OptionClasses();
    var instance := space.New(base);
    before := InstanceValue(space.classes, space.instances[instance], "single_option");
    var r := space.WriteClass(base, "single_option", Some(Sym("new_default")));
    followed := InstanceValue(space.classes, space.instances[instance], "single_option");
    r := space.WriteInstance(instance, "single_option", Some(Sym("override")));
    overridden := InstanceValue(space.classes, space.instances[instance], "single_option");
    classAfter := ClassValue(space.classes, base, "single_option");
  }

  /**
   * Subclass inheritance: a subclass reads its superclass's value until it
   * sets its own, which its instances then see and the superclass and its
   * instances do not; setting it back to nil restores inheritance.
   */
  method SubclassInheritance() returns (inherited: Option<Value>, subOwn: Option<Value>, baseKept: Option<Value>,
                                        subInstance: Option<Value>, baseInstance: Option<Value>, restored: Option<Value>)
    ensures inherited == Some(Sym("single_option_default"))
    ensures subOwn == Some(Sym("subclass_default")) && baseKept == Some(Sym("single_option_default"))
    ensures subInstance == Some(Sym("subclass_default")) && baseInstance == Some(Sym("single_option_default"))
    ensures restored == Some(Sym("single_option_default"))
  {
    var space, base, sub := OptionClasses();
    inherited := ClassValue(space.classes, sub, "single_option");
    var r := space.WriteClass(sub, "single_option", Some(Sym("subclass_default")));
    subOwn := ClassValue(space.classes, sub, "single_option");
    baseKept := ClassValue(space.classes, base, "single_option");
    var baseObject := space.New(base);
    var subObject := space.New(sub);
    subInstance := InstanceValue(space.classes, space.instances[subObject], "single_option");
    baseInstance := InstanceValue(space.classes, space.instances[baseObject], "single_option");
    r := space.WriteClass(sub, "single_option", None);
    restored := ClassValue(space.classes, sub, "single_option");
  }

  /**
   * An explicit `false` written on an instance is kept, not replaced by
   * the class's nil, and the class stays nil; an option never set reads nil.
   */
  method ExplicitFalseIsKept() returns (classBefore: Option<Value>, own: Option<Value>,
                                         classAfter: Option<Value>, unset: Option<Value>)
    ensures classBefore == None && own == Some(Bool(false)) && classAfter == None && unset == None
  {
    var space, base, sub := OptionClasses();
    classBefore := ClassValue(space.classes, base, "multi1");
    var instance := space.New(base);
    var r := space.WriteInstance(instance, "multi1", Some(Bool(false)));
    own := InstanceValue(space.classes, space.instances[instance], "multi1");
    classAfter := ClassValue(space.classes, base, "multi1");
    unset := InstanceValue(space.classes, space.instances[instance], "multi2");
  }

  /**
   * A boolean option written on an instance stores the value's truthiness,
   * which `boolean_option?` then answers; writing nil stores nil, and the
   * query falls back to the class, whose value is nil, so it answers false.
   */
  method BooleanOptionCoerces() returns (stored: Option<Value>, query: Result<bool, OptionError>,
                                         cleared: Option<Value>, fallback: Result<bool, OptionError>)
    ensures stored == Some(Bool(true)) && query == Success(true)
    ensures cleared == None && fallback == Success(false)
  {
    var space, base, sub := OptionClasses();
    var instance := space.New(base);
    assert WriterFlag(space.classes, base, "boolean_option") == Some(true);
    assert RespondsToQuery(space.classes, base, "boolean_option");
    var r := space.WriteInstance(instance, "boolean_option", Some(Sym("yes")));
    stored := Get(space.instances[instance].ivars, "boolean_option");
    query := QueryInstance(space.classes, space.instances[instance], "boolean_option");
    r := space.WriteInstance(instance, "boolean_option", None);
    cleared := Get(space.instances[instance].ivars, "boolean_option");
    fallback := QueryInstance(space.classes, space.instances[instance], "boolean_option");
  }

  /**
   * A boolean option declared again as plain keeps its `flag?` readers:
   * the second declaration defines no `flag?` and removes none, so the class
   * and an instance still answer `flag?`, here false for a nil value.
   */
  method RedeclaredPlainKeepsQuery() returns (classQuery: Result<bool, OptionError>,
                                              instanceQuery: Result<bool, OptionError>)
    ensures classQuery == Success(false) && instanceQuery == Success(false)
  {
    var space := new ObjectSpace();
    var c := space.DefineClass(None);
    space.OptionReader(c, ["flag"], None, true);
    space.OptionReader(c, ["flag"], None, false);
    assert "flag" in ["flag"];
    assert RespondsToQuery(space.classes, c, "flag");
    var instance := space.New(c);
    classQuery := QueryClass(space.classes, c, "flag");
    instanceQuery := QueryInstance(space.classes, space.instances[instance], "flag");
  }

  // ---------------------------------------------------------------------
  // Dispatcher's thread limit
  // ---------------------------------------------------------------------

  /**
   * `Dispatcher` declares `thread_limit` with default 24; `Dispatcher.new`
   * with no limit stores nil on the instance, which therefore reads 24,
   * the class's value; a limit passed to `new` is read back as given.
   */
  method ThreadLimitFallsBack(limit: Option<int>) returns (classLimit: Option<Value>, instanceLimit: Option<Value>)
    ensures classLimit == Some(Int(24))
    ensures instanceLimit == if limit.Some? then Some(Int(limit.value)) else Some(Int(24))
  {
    var space := new ObjectSpace();
    var dispatcher := space.DefineClass(None);
    space.OptionAccessor(dispatcher, ["thread_limit"], Some(Int(24)), false);
    var instance := space.New(dispatcher);
    var stored: Option<Value> := if limit.Some? then Some(Int(limit.value)) else None;
    var r := space.WriteInstance(instance, "thread_limit", stored);
    classLimit := ClassValue(space.classes, dispatcher, "thread_limit");
    instanceLimit := InstanceValue(space.classes, space.instances[instance], "thread_limit");
  }
}
