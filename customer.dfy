/**
 * The Customer entity: its declared attribute tables, its per-field read
 * accessors, the derived `name`, and the fixed authentication-identity
 * contract it offers to a session framework.
 *
 * Reading `$customer->key` goes through the attribute store of the base
 * class: the stored value, else the declared default, else null; a field
 * with an accessor is then passed through it. That lookup order and the
 * read-only check on writes belong to the base class, whose code is not
 * part of this model; they are stated here as assumptions.
 */
module Customers {
  import opened PhpValues

  /** The declared defaults: `id`, `firstname` and `surname` are null. */
  const Defaults: map<string, Value> := map["id" := Null, "firstname" := Null, "surname" := Null]

  /** Attributes that only hydration may set. */
  const ReadOnlyAttributes: set<string> := {"id", "user_hash"}

  /** Fields whose accessor casts to integer. */
  const IntFields: set<string> := {"score", "group_id", "companyId"}

  /** Fields whose accessor casts to boolean. */
  const BoolFields: set<string> := {"no_newsletter", "no_sms", "use_time", "has_error", "password_reset"}

  /** The stored value of `key`, else its declared default, else null. */
  function RawAttribute(attributes: map<string, Value>, key: string): (v: Value)
    ensures key in attributes ==> v == attributes[key]
    ensures key !in attributes && key !in Defaults ==> v == Null
    ensures key !in attributes && key in {"id", "firstname", "surname"} ==> v == Null
  {
    if key in attributes then attributes[key]
    else if key in Defaults then Defaults[key]
    else Null
  }

  // ---------------------------------------------------------------------------
  // Integer accessors: `(int) $raw`

  function ScoreAttribute(score: Value): (r: PhpInt)
    ensures IsIntCastOf(score, r)
  {
    ToInt(score)
  }

  function GroupIdAttribute(groupId: Value): (r: PhpInt)
    ensures IsIntCastOf(groupId, r)
  {
    ToInt(groupId)
  }

  function CompanyIdAttribute(companyId: Value): (r: PhpInt)
    ensures IsIntCastOf(companyId, r)
  {
    ToInt(companyId)
  }

  // ---------------------------------------------------------------------------
  // Boolean accessors: `(bool) $raw`

  function NoNewsletterAttribute(noNewsletter: Value): (r: bool)
    ensures !r <==> IsFalsy(noNewsletter)
  {
    ToBool(noNewsletter)
  }

  function NoSmsAttribute(noSms: Value): (r: bool)
    ensures !r <==> IsFalsy(noSms)
  {
    ToBool(noSms)
  }

  /** Documented as an integer, but its accessor casts to boolean. */
  function UseTimeAttribute(useTime: Value): (r: bool)
    ensures !r <==> IsFalsy(useTime)
  {
    ToBool(useTime)
  }

  function HasErrorAttribute(hasError: Value): (r: bool)
    ensures !r <==> IsFalsy(hasError)
  {
    ToBool(hasError)
  }

  function PasswordResetAttribute(passwordReset: Value): (r: bool)
    ensures !r <==> IsFalsy(passwordReset)
  {
    ToBool(passwordReset)
  }

  // ---------------------------------------------------------------------------
  // The derived name: `trim($this->firstname . ' ' . $this->surname)`

  /**
   * The string the name is trimmed from: the first name and the surname as
   * strings, with one space between them; " " when neither is set.
   */
  function FullName(attributes: map<string, Value>): (full: string)
    ensures var first := ToStr(RawAttribute(attributes, "firstname"));
      && |full| == |first| + 1 + |ToStr(RawAttribute(attributes, "surname"))|
      && full[..|first|] == first && full[|first|] == ' '
      && full[|first| + 1..] == ToStr(RawAttribute(attributes, "surname"))
    ensures "firstname" !in attributes && "surname" !in attributes ==> full == " "
  {
    ToStr(RawAttribute(attributes, "firstname")) + " " + ToStr(RawAttribute(attributes, "surname"))
  }

  /**
   * The name is the first name, a space and the surname with the strippable
   * characters at both ends removed: nothing else is taken away, and neither
   * end of it is strippable.
   */
  function NameOf(attributes: map<string, Value>): (name: string)
    ensures IsTrimmed(name)
    ensures exists k :: StripsTo(FullName(attributes), k, name)
  {
    Trim(FullName(attributes))
  }

  /** Re-trimming the name changes nothing. */
  lemma NameIsStable(attributes: map<string, Value>)
    ensures Trim(NameOf(attributes)) == NameOf(attributes)
  {
  }

  /** With the declared null defaults for both parts the name is empty. */
  lemma NameOfDefaults()
    ensures NameOf(map[]) == ""
  {
  }

  /** A first name alone (surname absent or null) comes back as it is, if it is trimmed. */
  lemma NameOfFirstNameOnly(attributes: map<string, Value>, firstname: string)
    requires "firstname" in attributes && attributes["firstname"] == Str(firstname)
    requires "surname" !in attributes || attributes["surname"] == Null
    requires IsTrimmed(firstname)
    ensures NameOf(attributes) == firstname
  {
    assert FullName(attributes) == firstname + " ";
    TrimWithTrailingSpace(firstname);
  }

  /** A surname alone (first name absent or null) comes back as it is, if it is trimmed. */
  lemma NameOfSurnameOnly(attributes: map<string, Value>, surname: string)
    requires "surname" in attributes && attributes["surname"] == Str(surname)
    requires "firstname" !in attributes || attributes["firstname"] == Null
    requires IsTrimmed(surname)
    ensures NameOf(attributes) == surname
  {
  }

  // ---------------------------------------------------------------------------
  // Reading a field through its accessor

  /**
   * What reading a field yields: a plain value, or the segment-data object
   * built by `SegmentData::factory` from the raw value (that factory is not
   * part of this model, so its result is kept symbolic).
   */
  datatype FieldValue = Plain(v: Value) | SegmentDataOf(raw: Value)

  /** `$customer->key`: the accessor for `key` applied to its raw value, if there is one. */
  function ReadAttribute(attributes: map<string, Value>, key: string): (r: FieldValue)
    ensures key in IntFields ==> r == Plain(Int(ToInt(RawAttribute(attributes, key))))
    ensures key in BoolFields ==> r == Plain(Bool(ToBool(RawAttribute(attributes, key))))
    ensures key == "name" ==> r == Plain(Str(NameOf(attributes)))
    ensures key == "segmentData" ==> r == SegmentDataOf(RawAttribute(attributes, key))
    ensures key !in IntFields + BoolFields + {"name", "segmentData"} ==> r == Plain(RawAttribute(attributes, key))
  {
    var raw := RawAttribute(attributes, key);
    match key
    case "name" => Plain(Str(NameOf(attributes)))
    case "score" => Plain(Int(ScoreAttribute(raw)))
    case "group_id" => Plain(Int(GroupIdAttribute(raw)))
    case "companyId" => Plain(Int(CompanyIdAttribute(raw)))
    case "no_newsletter" => Plain(Bool(NoNewsletterAttribute(raw)))
    case "no_sms" => Plain(Bool(NoSmsAttribute(raw)))
    case "use_time" => Plain(Bool(UseTimeAttribute(raw)))
    case "has_error" => Plain(Bool(HasErrorAttribute(raw)))
    case "password_reset" => Plain(Bool(PasswordResetAttribute(raw)))
    case "segmentData" => SegmentDataOf(raw)
    case _ => Plain(raw)
  }

  /**
   * Every field has a stable type whatever the remote service sent: the
   * boolean fields read as booleans, false exactly on PHP's falsy values;
   * the integer fields read as integers cast from the raw value; the name
   * reads as a trimmed string; a field without accessor reads as stored.
   */
  lemma ReadAttributeTypes(attributes: map<string, Value>, key: string)
    ensures key in BoolFields ==>
      var r := ReadAttribute(attributes, key);
      r.Plain? && r.v.Bool? && (!r.v.b <==> IsFalsy(RawAttribute(attributes, key)))
    ensures key in IntFields ==>
      var r := ReadAttribute(attributes, key);
      r.Plain? && r.v.Int? && IsIntCastOf(RawAttribute(attributes, key), r.v.i)
    ensures key == "name" ==>
      var r := ReadAttribute(attributes, key);
      r.Plain? && r.v.Str? && IsTrimmed(r.v.s)
    ensures key !in BoolFields + IntFields + {"name", "segmentData"} ==>
      ReadAttribute(attributes, key) == Plain(RawAttribute(attributes, key))
  {
  }

  /** A value written to a field without accessor is what the next read returns. */
  lemma WriteThenRead(attributes: map<string, Value>, key: string, value: Value)
    requires key !in BoolFields + IntFields + {"name", "segmentData"}
    ensures ReadAttribute(attributes[key := value], key) == Plain(value)
  {
  }

  /** A customer built from nothing reads null for `id`, `firstname`, `surname` and "" for `name`. */
  lemma EmptyCustomerReads()
    ensures ReadAttribute(map[], "id") == Plain(Null)
    ensures ReadAttribute(map[], "firstname") == Plain(Null)
    ensures ReadAttribute(map[], "surname") == Plain(Null)
    ensures ReadAttribute(map[], "name") == Plain(Str(""))
  {
  }

  // ---------------------------------------------------------------------------
  // The entity

  class Customer {
    /** The raw attributes, as hydrated and then written. */
    var attributes: map<string, Value>

    /** Hydration: every attribute of the payload is stored, read-only ones included. */
    constructor (payload: map<string, Value>)
      ensures attributes == payload
    {
      attributes := payload;
    }

    /** `$this->key`. */
    function Read(key: string): FieldValue
      reads this
    {
      ReadAttribute(attributes, key)
    }

    /** `$this->name`. */
    function Name(): (name: string)
      reads this
      ensures IsTrimmed(name)
      ensures exists k :: StripsTo(FullName(attributes), k, name)
    {
      Read("name").v.s
    }

    /**
     * Writing an attribute, as the base class does it: a read-only attribute
     * is refused and nothing changes; any other is stored.
     */
    method SetAttribute(key: string, value: Value) returns (ok: bool)
      modifies this
      ensures ok <==> key !in ReadOnlyAttributes
      ensures attributes == if ok then old(attributes)[key := value] else old(attributes)
    {
      ok := key !in ReadOnlyAttributes;
      if ok {
        attributes := attributes[key := value];
      }
    }

    // -------------------------------------------------------------------------
    // Authentication identity

    function AuthIdentifierName(): (name: string)
      ensures name == "id"
    {
      "id"
    }

    /** The identifier is the stored `id`, or null when none is stored. */
    function AuthIdentifier(): (id: Value)
      reads this
      ensures id == if "id" in attributes then attributes["id"] else Null
    {
      Read(AuthIdentifierName()).v
    }

    /** The entity never holds a usable password. */
    function AuthPassword(): (password: Value)
      ensures password == Null
    {
      Null
    }

    function RememberTokenName(): (name: string)
      ensures name == "token"
    {
      "token"
    }

    /** The remember token is the stored `token`, or null when none is stored. */
    function RememberToken(): (token: Value)
      reads this
      ensures token == if "token" in attributes then attributes["token"] else Null
    {
      Read(RememberTokenName()).v
    }

    /** Remembering a token is not supported: nothing changes. */
    method SetRememberToken(value: Value)
      ensures attributes == old(attributes)
      ensures RememberToken() == old(RememberToken())
    {
    }
  }
}
