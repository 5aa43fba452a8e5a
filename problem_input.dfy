/** The input bar (components/ProblemInput.tsx and its copy
    components/problemInput/ProblemInput.tsx, whose logic is the same line
    for line): the text and image it holds, the guard that decides whether a
    send is forwarded, and the send button's disabled and enabled looks. The
    `isLoading` prop is a parameter of each operation. */
module ProblemInput {
  import opened Wrappers
  import opened Types
  import Strings

  /** What `onSendMessage` receives: the raw text and the image or undefined. */
  datatype Outgoing = Outgoing(text: string, image: Option<string>)

  /** `(input.trim() || image) && !isLoading`: the guard of `handleSend`,
      also the condition for the enabled style. */
  predicate SendAllowed(input: string, image: Option<string>, isLoading: bool)
    ensures SendAllowed(input, image, isLoading) ==> !isLoading
    ensures Truthy(image) && !isLoading ==> SendAllowed(input, image, isLoading)
  {
    (Strings.Trim(input) != "" || Truthy(image)) && !isLoading
  }

  /** The guard in plain terms: some non-whitespace text or a non-empty image,
      and no request outstanding. */
  lemma SendAllowedIff(input: string, image: Option<string>, isLoading: bool)
    ensures SendAllowed(input, image, isLoading) <==>
              (Strings.HasNonWhitespace(input) || Truthy(image)) && !isLoading
  {
    Strings.TrimNonEmptyIff(input);
  }

  /** `(!input.trim() && !image) || isLoading`: the `disabled` attribute of the
      send button, the exact negation of the guard. */
  function SendDisabled(input: string, image: Option<string>, isLoading: bool): (disabled: bool)
    ensures disabled <==> !SendAllowed(input, image, isLoading)
  {
    (Strings.Trim(input) == "" && !Truthy(image)) || isLoading
  }

  /** The send button carries the enabled style exactly when it is not disabled. */
  function UsesEnabledStyle(input: string, image: Option<string>, isLoading: bool): (enabled: bool)
    ensures enabled <==> !SendDisabled(input, image, isLoading)
  {
    (Strings.Trim(input) != "" || Truthy(image)) && !isLoading
  }

  /** With no text and no image the button is disabled. */
  lemma DisabledWhenEmpty(isLoading: bool)
    ensures SendDisabled("", None, isLoading)
  {
  }

  /** While loading the button is disabled, whatever the text and image. */
  lemma DisabledWhileLoading(input: string, image: Option<string>)
    ensures SendDisabled(input, image, true) && !UsesEnabledStyle(input, image, true)
  {
  }

  /** Text with a non-whitespace character alone enables the button. */
  lemma EnabledWithText(input: string)
    requires Strings.HasNonWhitespace(input)
    ensures !SendDisabled(input, None, false) && UsesEnabledStyle(input, None, false)
  {
    SendAllowedIff(input, None, false);
  }

  /** An image alone enables the button. */
  lemma EnabledWithImage(dataUrl: string)
    requires dataUrl != ""
    ensures !SendDisabled("", Some(dataUrl), false) && UsesEnabledStyle("", Some(dataUrl), false)
  {
  }

  /** Text made only of whitespace does not enable the button on its own. */
  lemma BlankTextIsNotText(input: string)
    requires Strings.AllWhitespace(input)
    ensures SendDisabled(input, None, false)
  {
    SendAllowedIff(input, None, false);
  }

  /** The component's state. */
  class InputBar {
    var input: string
    var image: Option<string>

    constructor ()
      ensures input == "" && image == None
    {
      input := "";
      image := None;
    }

    /** `{image && ...}`: the preview and its remove button are shown. */
    predicate ShowsPreview()
      reads this
      ensures ShowsPreview() ==> image.Some? && image.value != ""
    {
      Truthy(image)
    }

    /** The textarea's `onChange`: `setInput(value)`. */
    method Edit(value: string)
      modifies this
      ensures input == value && image == old(image)
    {
      input := value;
    }

    /** The end of a file read: `setImage(dataUrl)`. */
    method ImageLoaded(dataUrl: string)
      modifies this
      ensures image == Some(dataUrl) && input == old(input)
    {
      image := Some(dataUrl);
    }

    /** The remove button of the preview: `setImage(null)`. */
    method RemoveImage()
      modifies this
      ensures image == None && !ShowsPreview() && input == old(input)
    {
      image := None;
    }

    /** `handleSend`: forward the raw text and the image (or undefined) when the
        guard holds, then clear both fields; otherwise change nothing. */
    method HandleSend(isLoading: bool) returns (sent: Option<Outgoing>)
      modifies this
      ensures sent.Some? <==> old(SendAllowed(input, image, isLoading))
      ensures sent.Some? ==>
        && sent.value == Outgoing(old(input), if Truthy(old(image)) then old(image) else None)
        && input == "" && image == None
      ensures sent.None? ==> input == old(input) && image == old(image)
    {
      if SendAllowed(input, image, isLoading) {
        sent := Some(Outgoing(input, if Truthy(image) then image else None));
        input := "";
        image := None;
      } else {
        sent := None;
      }
    }

    /** The textarea's `onKeyDown`: Enter without Shift prevents the default
        (a new line) and runs the same guarded send; any other key does nothing. */
    method KeyDown(key: string, shiftKey: bool, isLoading: bool) returns (prevented: bool, sent: Option<Outgoing>)
      modifies this
      ensures prevented <==> key == "Enter" && !shiftKey
      ensures sent.Some? <==> prevented && old(SendAllowed(input, image, isLoading))
      ensures sent.Some? ==>
        && sent.value == Outgoing(old(input), if Truthy(old(image)) then old(image) else None)
        && input == "" && image == None
      ensures sent.None? ==> input == old(input) && image == old(image)
    {
      prevented := key == "Enter" && !shiftKey;
      if prevented {
        sent := HandleSend(isLoading);
      } else {
        sent := None;
      }
    }
  }
}
