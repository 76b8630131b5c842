/**
  The declaration builder: a fluent descriptor of one setting whose setters
  update the object in place and return it, and which compiles to one
  metadata record.
 */
module Registrar {
  import opened Values

  /** A callback registered with `using`, known only by its identity. */
  datatype Closure = Closure(id: nat)

  /** All fields of a declaration, as one value. */
  datatype DeclarationFields = DeclarationFields(
    name: string,
    bag: string,
    typeTag: TypeTag,
    default: Mixed,
    enabled: bool,
    group: string,
    from: Option<string>,
    using: Option<Closure>)

  class Declaration {
    var name: string
    var bag: string
    var typeTag: TypeTag
    var default: Mixed
    var enabled: bool
    var group: string
    /** The old setting whose value is migrated into this one, if any. */
    var from: Option<string>
    /** The callback that translates the migrated value, if any. */
    var using: Option<Closure>

    function Current(): DeclarationFields
      reads this
    {
      DeclarationFields(name, bag, typeTag, default, enabled, group, from, using)
    }

    /** A new declaration: a string setting, null default, enabled, in the
        group "default", migrating nothing. */
    constructor (name: string, bag: string)
      ensures Current() == DeclarationFields(name, bag, TypeString, Null, true, "default", None, None)
    {
      this.name := name;
      this.bag := bag;
      typeTag := TypeString;
      default := Null;
      enabled := true;
      group := "default";
      from := None;
      using := None;
    }

    /** Every type setter: set the type, keep everything else, return `this`. */
    method SetType(t: TypeTag) returns (self: Declaration)
      modifies this
      ensures self == this && Current() == old(Current()).(typeTag := t)
    {
      typeTag := t;
      self := this;
    }

    method String() returns (self: Declaration)
      modifies this
      ensures self == this && Current() == old(Current()).(typeTag := TypeString)
    {
      self := SetType(TypeString);
    }

    method Boolean() returns (self: Declaration)
      modifies this
      ensures self == this && Current() == old(Current()).(typeTag := TypeBoolean)
    {
      self := SetType(TypeBoolean);
    }

    method Integer() returns (self: Declaration)
      modifies this
      ensures self == this && Current() == old(Current()).(typeTag := TypeInteger)
    {
      self := SetType(TypeInteger);
    }

    method Float() returns (self: Declaration)
      modifies this
      ensures self == this && Current() == old(Current()).(typeTag := TypeFloat)
    {
      self := SetType(TypeFloat);
    }

    method Array() returns (self: Declaration)
      modifies this
      ensures self == this && Current() == old(Current()).(typeTag := TypeArray)
    {
      self := SetType(TypeArray);
    }

    method Datetime() returns (self: Declaration)
      modifies this
      ensures self == this && Current() == old(Current()).(typeTag := TypeDatetime)
    {
      self := SetType(TypeDatetime);
    }

    method Collection() returns (self: Declaration)
      modifies this
      ensures self == this && Current() == old(Current()).(typeTag := TypeCollection)
    {
      self := SetType(TypeCollection);
    }

    method Default(value: Mixed) returns (self: Declaration)
      modifies this
      ensures self == this && Current() == old(Current()).(default := value)
    {
      default := value;
      self := this;
    }

    /** `disabled(enabled = false)`: the argument becomes the enabled flag,
        so `disabled(true)` enables. */
    method Disabled(enabled: bool := false) returns (self: Declaration)
      modifies this
      ensures self == this && Current() == old(Current()).(enabled := enabled)
    {
      this.enabled := enabled;
      self := this;
    }

    method Group(name: string) returns (self: Declaration)
      modifies this
      ensures self == this && Current() == old(Current()).(group := name)
    {
      group := name;
      self := this;
    }

    method Bag(name: string) returns (self: Declaration)
      modifies this
      ensures self == this && Current() == old(Current()).(bag := name)
    {
      bag := name;
      self := this;
    }

    method From(oldSetting: string) returns (self: Declaration)
      modifies this
      ensures self == this && Current() == old(Current()).(from := Some(oldSetting))
    {
      from := Some(oldSetting);
      self := this;
    }

    method Using(callback: Closure) returns (self: Declaration)
      modifies this
      ensures self == this && Current() == old(Current()).(using := Some(callback))
    {
      using := Some(callback);
      self := this;
    }

    /** `toMetadata()`: the schema record of this declaration, with the
        enabled flag as `is_enabled`; a function, so the declaration is left
        as it was. */
    function ToMetadata(): (m: Metadata)
      reads this
      ensures m.name == name && m.typeTag == typeTag && m.default == default
      ensures m.bag == bag && m.group == group && m.isEnabled == enabled
    {
      Metadata(name, typeTag, default, bag, group, enabled)
    }
  }

  /** The legacy-value migration (`from`, `using`) is not part of the
      compiled record: declarations that differ only there compile alike. */
  lemma ToMetadataIgnoresMigration(d: Declaration, e: Declaration)
    requires d.Current().(from := None, using := None) == e.Current().(from := None, using := None)
    ensures d.ToMetadata() == e.ToMetadata()
  {
    assert d.name == e.name && d.bag == e.bag && d.typeTag == e.typeTag;
    assert d.default == e.default && d.enabled == e.enabled && d.group == e.group;
  }

  /** Declaring "theme" in bag "ui" as a string defaulting to "light". */
  method DeclareTheme() returns (m: Metadata)
    ensures m == Metadata("theme", TypeString, Str("light"), "ui", "default", true)
  {
    var d := new Declaration("theme", "ui");
    d := d.String();
    d := d.Default(Str("light"));
    m := d.ToMetadata();
  }

  /** Several type calls on one declaration: the last one wins, and the
      other fields keep their defaults. */
  method LastTypeCallWins() returns (m: Metadata)
    ensures m == Metadata("n", TypeBoolean, Null, "b", "default", true)
  {
    var d := new Declaration("n", "b");
    d := d.Integer();
    d := d.Collection();
    d := d.Boolean();
    m := d.ToMetadata();
  }

  /** `disabled()` disables, `disabled(true)` enables again, and a
      registered migration does not reach the compiled record. */
  method DisabledAndMigration() returns (off: Metadata, on: Metadata)
    ensures !off.isEnabled && on.isEnabled
    ensures off == on.(isEnabled := false)
  {
    var d := new Declaration("n", "b");
    d := d.Disabled();
    off := d.ToMetadata();
    d := d.From("old");
    d := d.Using(Closure(7));
    d := d.Disabled(true);
    on := d.ToMetadata();
  }
}
