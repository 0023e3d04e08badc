/** `StaticEnvironment`: an append-only list of static fields and their values. */
module StaticEnv {
  import opened Protocol
  import opened TraceData

  type StaticField = (FieldId, Value)

  class StaticEnvironment {
    var listOfFields: seq<StaticField>

    /** The empty environment. */
    constructor ()
      ensures listOfFields == []
    {
      listOfFields := [];
    }

    /** The environment of `fields`, in order; also the vararg form. */
    constructor FromList(fields: seq<StaticField>)
      ensures listOfFields == fields
    {
      listOfFields := [];
      new;
      AddStaticFields(fields);
    }

    /** `addAll`: appends, keeping every earlier entry and duplicates. */
    method AddStaticFields(fields: seq<StaticField>)
      modifies this
      ensures listOfFields == old(listOfFields) + fields
    {
      listOfFields := listOfFields + fields;
    }
  }
}
