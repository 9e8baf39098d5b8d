/**
 * The form builder: a form template (title, description, list of fields)
 * and the inputs of the "add field" panel. Adding a field checks the label,
 * turns the options text of a dropdown into a list, appends the field and
 * clears the panel; removing a field filters it out by id.
 */
module FormBuilder {
  import opened Collections
  import opened Text

  datatype FieldType = TextField | TextArea | DateField | Dropdown | FileField

  datatype FormField = FormField(
    id: string,
    fieldType: FieldType,
    labelText: string,
    placeholder: string,
    required: bool,
    options: Option<seq<string>>)

  datatype FormTemplate = FormTemplate(id: string, title: string, description: string, fields: seq<FormField>)

  function FieldId(f: FormField): string {
    f.id
  }

  /**
   * `text.split(',').map(opt => opt.trim())`: one option per comma-separated
   * piece, empty pieces included, each trimmed.
   */
  function ParseOptions(text: string): (r: seq<string>)
    ensures |r| == CountChar(text, ',') + 1
    ensures forall i :: 0 <= i < |r| ==> r[i] == Trim(Split(text, ',')[i])
    ensures forall i :: 0 <= i < |r| ==> r[i] == [] || (!IsWhitespace(r[i][0]) && !IsWhitespace(r[i][|r[i]| - 1]))
  {
    var pieces := Split(text, ',');
    seq(|pieces|, i requires 0 <= i < |pieces| => Trim(pieces[i]))
  }

  /** Options typed as a comma-separated list of clean names come back as that list. */
  lemma ParseJoinedOptions(options: seq<string>)
    requires options != []
    requires forall i :: 0 <= i < |options| ==> ',' !in options[i]
    requires forall i :: 0 <= i < |options| ==>
               options[i] == [] || (!IsWhitespace(options[i][0]) && !IsWhitespace(options[i][|options[i]| - 1]))
    ensures ParseOptions(Join(options, ',')) == options
  {
    SplitJoin(options, ',');
    forall i | 0 <= i < |options| ensures Trim(options[i]) == options[i] {
      TrimTrimmed(options[i]);
    }
  }

  /** The options a new field gets: a list only for a dropdown whose options text is not blank. */
  function FieldOptions(fieldType: FieldType, optionsText: string): (r: Option<seq<string>>)
    ensures r.Some? <==> fieldType == Dropdown && !IsBlank(optionsText)
    ensures r.Some? ==> |r.value| == CountChar(optionsText, ',') + 1
  {
    if fieldType == Dropdown && !IsBlank(optionsText) then Some(ParseOptions(optionsText)) else None
  }

  /** The field `addField` appends; its id is made from the time `now`. */
  function NewField(now: int, fieldType: FieldType, labelText: string, placeholder: string, required: bool,
                    optionsText: string): FormField
  {
    FormField("field-" + IntToString(now), fieldType, labelText, placeholder, required, FieldOptions(fieldType, optionsText))
  }

  /** Removing a just-added field whose id was new gives back the fields as they were before. */
  lemma RemoveAddedField(fields: seq<FormField>, f: FormField)
    requires !HasKey(fields, FieldId, f.id)
    ensures RemoveWhere(fields + [f], FieldId, f.id) == fields
  {
    RemoveConcat(fields, [f], FieldId, f.id);
    RemoveMissing(fields, FieldId, f.id);
    assert RemoveWhere([f], FieldId, f.id) == [];
  }

  class Builder {
    var template: FormTemplate
    var fieldType: FieldType
    var fieldLabel: string
    var fieldPlaceholder: string
    var fieldRequired: bool
    var fieldOptions: string

    /** A fresh untitled template whose id is made from the time `now`. */
    constructor (now: int)
      ensures template == FormTemplate("form-" + IntToString(now), "Untitled Form", "Form description", [])
      ensures fieldType == TextField && fieldLabel == "" && fieldPlaceholder == ""
      ensures !fieldRequired && fieldOptions == ""
    {
      template := FormTemplate("form-" + IntToString(now), "Untitled Form", "Form description", []);
      fieldType := TextField;
      fieldLabel := "";
      fieldPlaceholder := "";
      fieldRequired := false;
      fieldOptions := "";
    }

    /** Typing into the "add field" panel. */
    method EditField(fieldType: FieldType, labelText: string, placeholder: string, required: bool, options: string)
      modifies this`fieldType, this`fieldLabel, this`fieldPlaceholder, this`fieldRequired, this`fieldOptions
      ensures this.fieldType == fieldType && fieldLabel == labelText && fieldPlaceholder == placeholder
      ensures fieldRequired == required && fieldOptions == options
    {
      this.fieldType := fieldType;
      fieldLabel := labelText;
      fieldPlaceholder := placeholder;
      fieldRequired := required;
      fieldOptions := options;
    }

    /** `addField`; the new field's id is made from the time `now`. */
    method AddField(now: int)
      modifies this`template, this`fieldLabel, this`fieldPlaceholder, this`fieldRequired, this`fieldOptions
      ensures IsBlank(old(fieldLabel)) ==>
                template == old(template) && fieldLabel == old(fieldLabel) && fieldPlaceholder == old(fieldPlaceholder)
                && fieldRequired == old(fieldRequired) && fieldOptions == old(fieldOptions)
      ensures !IsBlank(old(fieldLabel)) ==>
                && template == old(template).(fields := old(template).fields
                     + [NewField(now, fieldType, old(fieldLabel), old(fieldPlaceholder), old(fieldRequired), old(fieldOptions))])
                && fieldLabel == [] && fieldPlaceholder == [] && !fieldRequired && fieldOptions == []
    {
      var blank := IsBlank(fieldLabel);
      if !blank {
        var field := NewField(now, fieldType, fieldLabel, fieldPlaceholder, fieldRequired, fieldOptions);
        template := FormTemplate(template.id, template.title, template.description, template.fields + [field]);
        fieldLabel := "";
        fieldPlaceholder := "";
        fieldRequired := false;
        fieldOptions := "";
      }
    }

    /** `removeField`. */
    method RemoveField(id: string)
      modifies this`template
      ensures template == old(template).(fields := RemoveWhere(old(template).fields, FieldId, id))
    {
      template := template.(fields := RemoveWhere(template.fields, FieldId, id));
    }

    method HandleTitleChange(value: string)
      modifies this`template
      ensures template == old(template).(title := value)
    {
      template := template.(title := value);
    }

    method HandleDescriptionChange(value: string)
      modifies this`template
      ensures template == old(template).(description := value)
    {
      template := template.(description := value);
    }
  }
}
