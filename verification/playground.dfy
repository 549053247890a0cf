/**
 * The fix playground (src/pages/FixPlayground.jsx): the user pastes a fix for
 * one finding, and a check sends it to the AI service and shows the verdict.
 * The component's state is the text area, the verdict on show and the loading
 * flag; the service's reply is an input.
 */
module Playground {
  import opened Strings
  import opened Findings
  import opened Remediation

  class FixPlayground {
    /** The finding the playground was opened for. */
    const vulnerability: Finding
    var code: string
    var result: Option<string>
    var loading: bool

    constructor(v: Finding)
      ensures vulnerability == v && code == "" && result.None? && !loading
    {
      vulnerability := v;
      code := "";
      result := None;
      loading := false;
    }

    /** The text area. */
    method SetCode(c: string)
      modifies this`code
      ensures code == c
    {
      code := c;
    }

    /** The part of a check before the request: a fix of white space only stops
        the check with nothing changed; any other raises the loading flag,
        clears the verdict, and returns the prompt to send. */
    method StartTestFix() returns (prompt: Option<string>)
      modifies this`loading, this`result
      ensures Blank(code) <==> prompt.None?
      ensures Blank(code) ==> loading == old(loading) && result == old(result)
      ensures !Blank(code) ==> loading && result.None? && prompt == Some(FixPrompt(vulnerability, code))
    {
      TrimEmptyIffBlank(code);
      if Trim(code) == "" {
        return None;
      }
      loading := true;
      result := None;
      prompt := Some(FixPrompt(vulnerability, code));
    }

    /** The part of a check after the reply: the verdict on show, the flag down. */
    method FinishTestFix(reply: Reply)
      modifies this`loading, this`result
      ensures result == Some(Verdict(reply)) && !loading
    {
      result := Some(Verdict(reply));
      loading := false;
    }

    /** One check of the fix, start to finish. */
    method TestFix(reply: Reply) returns (prompt: Option<string>)
      modifies this`loading, this`result
      ensures Blank(code) ==> prompt.None? && loading == old(loading) && result == old(result)
      ensures !Blank(code) ==> prompt == Some(FixPrompt(vulnerability, code))
      ensures !Blank(code) ==> result == Some(Verdict(reply)) && result.value != "" && !loading
    {
      prompt := StartTestFix();
      if prompt.Some? {
        FinishTestFix(reply);
      }
    }
  }
}
