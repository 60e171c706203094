/**
 * The "Add New Source" form: three fields edited by the user and a submit handler that refuses a
 * blank name or URL, otherwise hands the new subscription to the dashboard, resets and closes.
 */
module AddSourceModal {
  import opened Types

  /** The form's component state. It outlives the dialog being hidden, so it is one object. */
  class AddSourceForm {
    var name: string
    var url: string
    var platform: Platform

    /** A new form is blank and preselects the blog platform. */
    constructor()
      ensures name == "" && url == "" && platform == BLOG
    {
      name := "";
      url := "";
      platform := BLOG;
    }

    /** Submission is allowed exactly when neither text field is the empty string. */
    predicate Complete()
      reads this
    {
      name != "" && url != ""
    }

    /** Typing in the name box. */
    method SetName(value: string)
      modifies this
      ensures name == value && url == old(url) && platform == old(platform)
    {
      name := value;
    }

    /** Typing in the URL box. */
    method SetUrl(value: string)
      modifies this
      ensures url == value && name == old(name) && platform == old(platform)
    {
      url := value;
    }

    /** Clicking one of the four platform buttons. */
    method SelectPlatform(p: Platform)
      modifies this
      ensures platform == p && name == old(name) && url == old(url)
    {
      platform := p;
    }

    /**
     * `handleSubmit`: `added` is the record passed to `onAdd` (None when it is not called) and
     * `closed` says whether `onClose` was called. `freshId` is the random id.
     */
    method Submit(freshId: string) returns (added: Option<FeedSource>, closed: bool)
      modifies this
      ensures added.Some? <==> old(Complete())
      ensures closed <==> old(Complete())
      ensures !old(Complete()) ==> name == old(name) && url == old(url) && platform == old(platform)
      ensures old(Complete()) ==>
        added == Some(FeedSource(freshId, old(name), old(url), old(platform))) &&
        name == "" && url == "" && platform == BLOG
    {
      if name == "" || url == "" {
        return None, false;
      }
      added := Some(FeedSource(freshId, name, url, platform));
      name := "";
      url := "";
      platform := BLOG;
      closed := true;
    }
  }

  /** Only emptiness is checked: a name made of spaces is accepted and passed on as typed. */
  method SubmitBlankLookingName(freshId: string) returns (added: Option<FeedSource>, closed: bool)
    ensures added == Some(FeedSource(freshId, "   ", "@someone", TWITTER)) && closed
  {
    var form := new AddSourceForm();
    form.SetName("   ");
    form.SelectPlatform(TWITTER);
    form.SetUrl("@someone");
    added, closed := form.Submit(freshId);
  }

  /** A submit with a name but no URL calls neither callback, and the typed name stays in the box. */
  method SubmitWithoutUrl(freshId: string, typed: string) returns (added: Option<FeedSource>, closed: bool, kept: string)
    ensures added == None && !closed && kept == typed
  {
    var form := new AddSourceForm();
    form.SetName(typed);
    added, closed := form.Submit(freshId);
    kept := form.name;
  }

  /** Two submissions in a row: the second one finds the form reset and is refused. */
  method SubmitTwice(freshId: string, name: string, url: string, p: Platform)
    returns (first: Option<FeedSource>, second: Option<FeedSource>)
    requires name != "" && url != ""
    ensures first == Some(FeedSource(freshId, name, url, p))
    ensures second == None
  {
    var form := new AddSourceForm();
    form.SelectPlatform(p);
    form.SetName(name);
    form.SetUrl(url);
    var closed;
    first, closed := form.Submit(freshId);
    second, closed := form.Submit(freshId);
  }
}
