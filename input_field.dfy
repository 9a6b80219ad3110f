/**
 * The text input of the web client: whether its current value is valid,
 * when the Enter key submits the enclosing form, which editor type it shows,
 * and how its `obscured`, `currentValue` and `focused` state cells change.
 * Rendering, the code editor itself and the DOM are outside the model; the
 * enclosing form is a boolean "a form exists".
 */
module InputFields {
  import opened Wrappers

  /** The `type` prop: a plain text input or a password. */
  datatype InputType = Text | Password

  /** The `validate` prop: absent, a fixed verdict, or a predicate on the value. */
  datatype Validate = Unset | Flag(verdict: bool) | Check(check: string -> bool)

  /** A required value must not be empty. */
  function ValidateRequire(v: string): (r: bool)
    ensures r <==> v != []
  {
    |v| > 0
  }

  /**
   * The `isValid` rule: a required input with an empty value is invalid
   * whatever `validate` says; otherwise a boolean `validate` is the verdict,
   * a function `validate` is asked about the value, and no `validate`
   * accepts.
   */
  function IsValid(required: bool, validate: Validate, currentValue: string): (r: bool)
    ensures required && currentValue == [] ==> !r
    ensures !(required && currentValue == []) ==>
      (validate.Unset? ==> r) && (validate.Flag? ==> r == validate.verdict) && (validate.Check? ==> r == validate.check(currentValue))
  {
    if required && !ValidateRequire(currentValue) then false
    else
      match validate
      case Flag(b) => b
      case Check(f) => f(currentValue)
      case Unset => true
  }

  /** The type handed to the editor: a password is shown as text once it is not obscured. */
  function EditorType(inputType: InputType, obscured: bool): (r: InputType)
    ensures r == Password <==> inputType == Password && obscured
  {
    if inputType == Password && !obscured then Text else inputType
  }

  /** Whether a key press submits the enclosing form. */
  function Submits(key: string, isValid: bool, formExists: bool): (r: bool)
    ensures r ==> key == "Enter"
    ensures key == "Enter" ==> (r <==> isValid && formExists)
  {
    key == "Enter" && isValid && formExists
  }

  /** A mounted input: its props and its three state cells. */
  class InputField {
    var inputType: InputType
    const required: bool
    const validate: Validate
    const readOnly: bool
    /**
     * Whether the caller passed its own `onKeyDown` prop.  The props are
     * spread onto the editor after the input's own key handler, so a
     * caller's handler takes its place.
     */
    const callerKeyDown: bool
    var obscured: bool
    var currentValue: string
    var focused: bool

    /** `obscured` starts true exactly for a password; the value starts as `defaultValue`, or "". */
    constructor(inputType: InputType, defaultValue: Option<string>, required: bool, validate: Validate, readOnly: bool, callerKeyDown: bool)
      ensures this.inputType == inputType && this.required == required && this.validate == validate && this.readOnly == readOnly
      ensures this.callerKeyDown == callerKeyDown
      ensures obscured == (inputType == Password)
      ensures currentValue == defaultValue.GetOr("")
      ensures !focused
    {
      this.inputType := inputType;
      this.required := required;
      this.validate := validate;
      this.readOnly := readOnly;
      this.callerKeyDown := callerKeyDown;
      obscured := inputType == Password;
      currentValue := defaultValue.GetOr("");
      focused := false;
    }

    /** Whether the current value passes the required check and the custom validator. */
    function IsValidNow(): bool
      reads this
    {
      IsValid(required, validate, currentValue)
    }

    function ShownType(): InputType
      reads this
    {
      EditorType(inputType, obscured)
    }

    /**
     * A `type` prop that differs from the previous one resets `obscured` as on
     * mount; the same `type` again keeps it.  The other cells keep their values.
     */
    method ChangeType(t: InputType)
      modifies this
      ensures inputType == t
      ensures t != old(inputType) ==> obscured == (t == Password)
      ensures t == old(inputType) ==> obscured == old(obscured)
      ensures currentValue == old(currentValue) && focused == old(focused)
    {
      if t != inputType {
        obscured := t == Password;
      }
      inputType := t;
    }

    /** The editor reports a new value: it becomes the current value. */
    method HandleChange(value: string)
      modifies this
      ensures currentValue == value
      ensures inputType == old(inputType) && obscured == old(obscured) && focused == old(focused)
    {
      currentValue := value;
    }

    /** Focus marks the input focused, unless it is read-only. */
    method HandleFocus()
      modifies this
      ensures readOnly ==> focused == old(focused)
      ensures !readOnly ==> focused
      ensures inputType == old(inputType) && obscured == old(obscured) && currentValue == old(currentValue)
    {
      if readOnly {
        return;
      }
      focused := true;
    }

    /** Blur always clears `focused`. */
    method HandleBlur()
      modifies this
      ensures !focused
      ensures inputType == old(inputType) && obscured == old(obscured) && currentValue == old(currentValue)
    {
      focused := false;
    }

    /** The eye button, shown only for a password input, flips `obscured`. */
    method ToggleObscured()
      requires inputType == Password
      modifies this
      ensures obscured == !old(obscured)
      ensures inputType == old(inputType) && currentValue == old(currentValue) && focused == old(focused)
    {
      obscured := !obscured;
    }

    /**
     * A key press: it submits the form only for Enter on a valid input inside
     * a form, and never when the caller's own `onKeyDown` replaced the input's
     * handler (what that handler does is outside the model).
     */
    method HandleKeyDown(key: string, formExists: bool) returns (submit: bool)
      ensures submit == (!callerKeyDown && Submits(key, IsValid(required, validate, currentValue), formExists))
    {
      if callerKeyDown {
        return false;
      }
      if key != "Enter" {
        return false;
      }
      if !IsValidNow() || !formExists {
        return false;
      }
      submit := true;
    }
  }

  /** A fresh password input shows its editor as a password; a text input as text. */
  lemma MountedType(inputType: InputType, obscured: bool)
    requires obscured == (inputType == Password)
    ensures EditorType(inputType, obscured) == inputType
  {
  }

  /** The eye button changes what the editor shows on a password, and never on a text input. */
  lemma ToggleEffect(inputType: InputType, obscured: bool)
    ensures inputType == Password ==> EditorType(inputType, !obscured) != EditorType(inputType, obscured)
    ensures inputType == Text ==> EditorType(inputType, !obscured) == Text
  {
  }

  /** A required input left empty never submits its form, whatever `validate` says. */
  lemma EmptyRequiredNeverSubmits(validate: Validate, key: string, formExists: bool)
    ensures !Submits(key, IsValid(true, validate, ""), formExists)
  {
  }
}
