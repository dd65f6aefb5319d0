/**
 * The alert view: an element with class 'alert' whose body is an optional
 * bold title followed by the message.
 */
module AlertView {
  import opened Wrappers
  import opened JsValues
  import opened Strings

  /** The options an alert is created with; an option not passed is Undefined. */
  datatype AlertOptions = AlertOptions(level: Value, title: Value, message: Value)

  /** The HTML `render` builds: the title in bold and a space when there is a title, then the message. */
  function AlertBody(title: Value, message: Value): string
  {
    (if Truthy(title) then "<strong>" + ToJsString(title) + "</strong> " else "") + ToJsString(message)
  }

  /**
   * The body always ends with the message; it is the message alone without a
   * truthy title, and otherwise starts with the bold title.
   */
  lemma AlertBodyShape(title: Value, message: Value)
    ensures EndsWith(AlertBody(title, message), ToJsString(message))
    ensures !Truthy(title) ==> AlertBody(title, message) == ToJsString(message)
    ensures Truthy(title) ==>
              |AlertBody(title, message)| == |ToJsString(title)| + |ToJsString(message)| + 18 &&
              AlertBody(title, message)[..8] == "<strong>" &&
              AlertBody(title, message)[8..8 + |ToJsString(title)|] == ToJsString(title)
  {
    var t, m := ToJsString(title), ToJsString(message);
    var prefix := if Truthy(title) then "<strong>" + t + "</strong> " else "";
    assert AlertBody(title, message) == prefix + m;
    assert (prefix + m)[|prefix|..] == m;
    if Truthy(title) {
      assert prefix[..8] == "<strong>" && prefix[8..8 + |t|] == t;
    }
  }

  /** With a non-empty title the body is the bold title, a space, and the message. */
  lemma AlertBodyWithTitle(title: string, message: string)
    requires title != ""
    ensures AlertBody(Str(title), Str(message)) == "<strong>" + title + "</strong> " + message
  {
  }

  /** With an empty or missing title the body is the message alone. */
  lemma AlertBodyWithoutTitle(title: Value, message: string)
    requires title == Str("") || title == Undefined
    ensures AlertBody(title, Str(message)) == message
  {
  }

  class AlertView {
    var level: Value
    var title: Value
    var message: Value
    /** The element's classes, its role attribute and its inner HTML. */
    var classes: set<string>
    var role: Option<string>
    var html: string

    /** `initialize(options)`: each missing or empty option takes its default. */
    constructor (options: AlertOptions)
      ensures level == Or(options.level, Str("info"))
      ensures title == Or(options.title, Str(""))
      ensures message == Or(options.message, Str(""))
      ensures options == AlertOptions(Undefined, Undefined, Undefined) ==>
                level == Str("info") && title == Str("") && message == Str("")
      ensures classes == {"alert"} && role == None && html == ""
    {
      level := Or(options.level, Str("info"));
      title := Or(options.title, Str(""));
      message := Or(options.message, Str(""));
      classes := {"alert"};
      role := None;
      html := "";
    }

    /** `render`: builds the body piece by piece and writes it into the element. */
    method Render()
      modifies this
      ensures html == AlertBody(title, message)
      ensures classes == old(classes) + {"alert-" + ToJsString(level)}
      ensures role == Some("alert")
      ensures level == old(level) && title == old(title) && message == old(message)
    {
      var body := "";
      if Truthy(title) {
        body := body + "<strong>" + ToJsString(title) + "</strong> ";
      }
      assert body == if Truthy(title) then "<strong>" + ToJsString(title) + "</strong> " else "" by {
        assert forall x: string :: "" + x == x;
      }
      body := body + ToJsString(message);
      classes := classes + {"alert-" + ToJsString(level)};
      role := Some("alert");
      html := body;
    }
  }
}
