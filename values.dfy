/**
  Values shared by every part of the settings engine: the type-erased setting
  value, the seven setting type tags, the metadata record, the per-owner
  setting record and the error outcomes the engine raises.
 */
module Values {

  datatype Option<T> = None | Some(value: T)

  /** A PHP `mixed` value as the engine sees it. Arrays, floats, dates and
      collections are opaque handles, so strict equality on them is equality
      of the handle. */
  datatype Mixed = Null | Bool(b: bool) | Int(i: int) | Str(s: string) | Opaque(id: nat)

  /** The seven type constants of the metadata model. */
  datatype TypeTag =
    | TypeArray | TypeCollection | TypeDatetime | TypeString
    | TypeInteger | TypeBoolean | TypeFloat

  /** The string each type constant stands for. */
  function TypeName(t: TypeTag): (s: string)
    ensures |s| > 0
  {
    match t
    case TypeArray => "array"
    case TypeCollection => "collection"
    case TypeDatetime => "datetime"
    case TypeString => "string"
    case TypeInteger => "integer"
    case TypeBoolean => "boolean"
    case TypeFloat => "float"
  }

  /** No two type constants share a string. */
  lemma TypeNameInjective(t: TypeTag, u: TypeTag)
    ensures TypeName(t) == TypeName(u) ==> t == u
  {
    if TypeName(t) == TypeName(u) {
      assert TypeName(t)[0] == TypeName(u)[0];
      assert |TypeName(t)| == |TypeName(u)|;
    }
  }

  /** The schema record of one setting; creation timestamps are left out. */
  datatype Metadata = Metadata(
    name: string,
    typeTag: TypeTag,
    default: Mixed,
    bag: string,
    group: string,
    isEnabled: bool)

  /** The part of one owner's setting that the collection observes. The group
      comes from the setting's metadata. */
  datatype Setting = Setting(value: Mixed, isEnabled: bool, default: Mixed, group: string)

  /** A call the collection forwards to one of its settings. */
  datatype SettingOp = SetValue(value: Mixed, force: bool) | SetToDefault | Enable | Disable

  /** "The setting `name` received `op`." */
  datatype Call = Call(name: string, op: SettingOp)

  /** What an operation of the engine raises instead of returning normally. */
  datatype Failure =
    | UnknownSetting(name: string)  // the RuntimeException of a batch `set`
    | NullReceiver(member: string)  // a member of a missing object was used (a PHP Error)
    | MigrationRejected             // the operator refused to delete old settings

  datatype Outcome = Pass | Fail(failure: Failure)

  /** The message text of each failure; the first and the last are the
      engine's own, the middle one paraphrases PHP's error. */
  function FailureMessage(f: Failure): (m: string)
  {
    match f
    case UnknownSetting(name) => "The setting [" + name + "] doesn't exist."
    case NullReceiver(member) => "Call to a member " + member + " on null"
    case MigrationRejected => "Settings migration has been rejected by the user."
  }

  /** The message of a failed batch names the missing setting: different
      names give different messages. */
  lemma UnknownSettingMessageNamesSetting(a: string, b: string)
    ensures FailureMessage(UnknownSetting(a)) == FailureMessage(UnknownSetting(b)) ==> a == b
  {
    var ma, mb := FailureMessage(UnknownSetting(a)), FailureMessage(UnknownSetting(b));
    if ma == mb {
      assert a == ma[|"The setting ["|..|ma| - |"] doesn't exist."|];
      assert b == mb[|"The setting ["|..|mb| - |"] doesn't exist."|];
    }
  }
}
