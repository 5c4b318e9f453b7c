/** The directory's entry: "the agent at `agentUrl` serves data of type
    `dataType` for user `userId`", a mutable Java bean with structural
    equality. */
module Entity {
  import opened Values

  /** The value held by a `DataSource`: its three nullable fields. */
  datatype Record = Record(userId: JString, agentUrl: JString, dataType: JString)
  {
    /** No field is null, which is what `equals` needs of its receiver. */
    predicate Complete() {
      userId.Some? && agentUrl.Some? && dataType.Some?
    }
  }

  /** What a Java boolean expression evaluates to: a value, or the
      `NullPointerException` thrown by calling a method on `null`. */
  datatype Answer = Answer(holds: bool) | NullPointer

  /** `a.equals(b)` for two Java strings: throws when `a` is null, and a
      non-null string never equals `null`. */
  function StringEquals(a: JString, b: JString): Answer {
    match a
    case None => NullPointer
    case Some(s) => Answer(b == Some(s))
  }

  /** Java's short-circuit `first && rest`: `rest` is evaluated only when
      `first` evaluates to true. */
  function AndThen(first: Answer, rest: Answer): Answer {
    match first
    case NullPointer => NullPointer
    case Answer(b) => if b then rest else Answer(false)
  }

  class DataSource {
    var userId: JString
    var agentUrl: JString
    var dataType: JString

    /** The three fields as one value. */
    function Value(): Record
      reads this
    {
      Record(userId, agentUrl, dataType)
    }

    /** The no-argument constructor: every field keeps its `null` initialiser. */
    constructor Empty()
      ensures Value() == Record(None, None, None)
    {
      userId, agentUrl, dataType := None, None, None;
    }

    /** The three-argument constructor. */
    constructor (userId: JString, agentUrl: JString, dataType: JString)
      ensures GetUserId() == userId && GetAgentUrl() == agentUrl && GetDataType() == dataType
    {
      this.userId, this.agentUrl, this.dataType := userId, agentUrl, dataType;
    }

    function GetAgentUrl(): JString
      reads this
    {
      agentUrl
    }

    function GetUserId(): JString
      reads this
    {
      userId
    }

    function GetDataType(): JString
      reads this
    {
      dataType
    }

    method SetAgentUrl(agentUrl: JString)
      modifies this
      ensures Value() == old(Value()).(agentUrl := agentUrl)
    {
      this.agentUrl := agentUrl;
    }

    method SetUserId(userId: JString)
      modifies this
      ensures Value() == old(Value()).(userId := userId)
    {
      this.userId := userId;
    }

    method SetDataType(dataType: JString)
      modifies this
      ensures Value() == old(Value()).(dataType := dataType)
    {
      this.dataType := dataType;
    }

    /** `equals(Object)`: null is never equal, an object is equal to itself,
        an object of another class is never equal, and otherwise the three
        fields are compared left to right with `String.equals`, which throws
        when this object's field is null. */
    function Equals(obj: object?): Answer
      reads this, obj
    {
      if obj == null then Answer(false)
      else if obj == this then Answer(true)
      else if !(obj is DataSource) then Answer(false)
      else
        var other := obj as DataSource;
        AndThen(StringEquals(userId, other.userId),
          AndThen(StringEquals(agentUrl, other.agentUrl),
            StringEquals(dataType, other.dataType)))
    }
  }

  lemma EqualsNull(d: DataSource)
    ensures d.Equals(null) == Answer(false)
  {
  }

  lemma EqualsSelf(d: DataSource)
    ensures d.Equals(d) == Answer(true)
  {
  }

  lemma EqualsOtherClass(d: DataSource, obj: object)
    requires !(obj is DataSource)
    ensures d.Equals(obj) == Answer(false)
  {
  }

  /** Against another `DataSource`, a receiver without null fields is equal
      exactly when all three fields are pairwise equal. */
  lemma EqualsFieldwise(d: DataSource, e: DataSource)
    requires d.Value().Complete()
    ensures d.Equals(e) == Answer(d.Value() == e.Value())
  {
  }

  /** Against another `DataSource`, a null `userId` on the receiver throws. */
  lemma EqualsThrowsOnNullUserId(d: DataSource, e: DataSource)
    requires d != e && d.userId.None?
    ensures d.Equals(e) == NullPointer
  {
  }

  lemma EqualsSymmetric(d: DataSource, e: DataSource)
    requires d.Value().Complete() && e.Value().Complete()
    ensures d.Equals(e) == e.Equals(d)
  {
    EqualsFieldwise(d, e);
    EqualsFieldwise(e, d);
  }

  lemma EqualsTransitive(c: DataSource, d: DataSource, e: DataSource)
    requires c.Value().Complete()
    requires c.Equals(d) == Answer(true) && d.Equals(e) == Answer(true)
    ensures c.Equals(e) == Answer(true)
  {
    EqualsFieldwise(c, d);
    EqualsFieldwise(d, e);
    EqualsFieldwise(c, e);
  }
}
