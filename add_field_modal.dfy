/** The "Add Custom Field" dialog of the business profile: a name and a type;
    submitting hands a non-blank name to the caller and resets the form. The
    caller's `onAdd` and `onClose` callbacks are results here. */
module AddFieldModal {
  import opened Common

  /** The values the type selector offers, in its order; "text" is the default. */
  const FieldTypes: seq<string> := ["text", "number", "date", "email", "url", "tel"]
  const DefaultFieldType := "text"

  /** What `onAdd` receives: the name as typed (not trimmed) and the type. */
  datatype CustomField = CustomField(fieldName: string, fieldType: string)

  /** `fieldName.trim()` is truthy: the name is not blank. */
  predicate Accepts(fieldName: string)
  {
    Trim(fieldName) != []
  }

  /** A name is accepted exactly when it has a character that is not whitespace. */
  lemma AcceptsIff(fieldName: string)
    ensures Accepts(fieldName) <==> exists i :: 0 <= i < |fieldName| && !IsWhiteSpace(fieldName[i])
  {
    TrimEmptyIff(fieldName);
  }

  /** The dialog's two state slots. */
  class FieldForm {
    var fieldName: string
    var fieldType: string

    /** The type is always one the selector offers. */
    predicate Valid()
      reads this
    {
      fieldType in FieldTypes
    }

    /** An empty name and the default type. */
    constructor ()
      ensures Valid()
      ensures fieldName == "" && fieldType == DefaultFieldType
    {
      fieldName := "";
      fieldType := DefaultFieldType;
    }

    /** Typing in the name field. */
    method SetFieldName(name: string)
      requires Valid()
      modifies this
      ensures Valid()
      ensures fieldName == name && fieldType == old(fieldType)
    {
      fieldName := name;
    }

    /** Choosing an option of the type selector. */
    method SetFieldType(t: string)
      requires Valid()
      requires t in FieldTypes
      modifies this
      ensures Valid()
      ensures fieldType == t && fieldName == old(fieldName)
    {
      fieldType := t;
    }

    /** `handleSubmit`: a blank name does nothing at all; otherwise `onAdd`
        receives the untrimmed name and the current type, the form returns to
        its defaults and `onClose` is called. */
    method HandleSubmit() returns (added: Option<CustomField>, closed: bool)
      requires Valid()
      modifies this
      ensures Valid()
      ensures !Accepts(old(fieldName)) ==>
        added == None && !closed && fieldName == old(fieldName) && fieldType == old(fieldType)
      ensures Accepts(old(fieldName)) ==>
        && added == Some(CustomField(old(fieldName), old(fieldType))) && closed
        && fieldName == "" && fieldType == DefaultFieldType
    {
      if Trim(fieldName) != [] {
        added := Some(CustomField(fieldName, fieldType));
        fieldName := "";
        fieldType := DefaultFieldType;
        closed := true;
      } else {
        added, closed := None, false;
      }
    }
  }
}
