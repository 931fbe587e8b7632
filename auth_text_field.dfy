/** The login/sign-up input field kinds: WhatsAppClone/Screens/Auth/Views/AuthTextField.swift. */
module AuthTextField {

  datatype KeyboardType = DefaultKeyboard | EmailAddressKeyboard

  datatype InputType = Email | Password | Custom(placeholder: string, iconName: string)
  {
    /** Hint text shown in the empty field. */
    function Placeholder(): (p: string)
      ensures Email? ==> p == "Email"
      ensures Password? ==> p == "Password"
      ensures Custom? ==> p == placeholder
    {
      match this
      case Email => "Email"
      case Password => "Password"
      case Custom(p, _) => p
    }

    /** SF Symbol shown left of the field. */
    function ImageName(): (name: string)
      ensures Email? ==> name == "envelope"
      ensures Password? ==> name == "lock"
      ensures Custom? ==> name == iconName
    {
      match this
      case Email => "envelope"
      case Password => "lock"
      case Custom(_, icon) => icon
    }

    /** Only the e-mail field asks for the e-mail keyboard. */
    function Keyboard(): (k: KeyboardType)
      ensures k == EmailAddressKeyboard <==> Email?
    {
      match this
      case Email => EmailAddressKeyboard
      case _ => DefaultKeyboard
    }

    /** The view's `switch type`: only the password field hides what is typed. */
    predicate UsesSecureField(): (b: bool)
      ensures b <==> Password?
    {
      match this
      case Password => true
      case _ => false
    }
  }

  /** What the field renders: a secure field, or a plain one with a keyboard. */
  datatype Field = SecureField(hint: string) | TextField(hint: string, keyboard: KeyboardType)

  function Body(t: InputType): (f: Field)
    ensures f.SecureField? <==> t.Password?
    ensures f.hint == t.Placeholder()
    ensures f.TextField? ==> f.keyboard == t.Keyboard()
  {
    if t.UsesSecureField() then SecureField(t.Placeholder()) else TextField(t.Placeholder(), t.Keyboard())
  }

  /** The e-mail field is the only one drawn as a plain "Email" field with the e-mail keyboard; the secure field keeps the default keyboard. */
  lemma EmailFieldIsUnique(t: InputType)
    ensures Body(t) == TextField("Email", EmailAddressKeyboard) <==> t == Email
    ensures t.UsesSecureField() ==> t.Keyboard() == DefaultKeyboard
  {
  }
}
