/** The per-user model selection of the bot: the fixed model catalog, the
    menu of selection buttons, the parsing of a button press, the stored
    selection with its default, and the message list sent with a question. */
module Session {
  import opened Text
  import opened Markdown
  import opened Chunker

  datatype Option<T> = None | Some(value: T)

  /** `MODELS`: the selectable model identifiers with their display names,
      in menu order. */
  const Models: seq<(string, string)> := [
    ("o1-mini", "O1 Mini"),
    ("o1-mini-2024-09-12", "O1 Mini (Sep 12, 2024)"),
    ("gpt-4o", "GPT-4O"),
    ("gpt-3.5-turbo", "GPT-3.5 Turbo (Fallback)")
  ]

  /** The model a user gets before choosing one. */
  const DefaultModel: string := "o1-mini"

  /** Prefix of the callback data carried by a selection button. */
  const CallbackPrefix: string := "model:"

  /** Models whose identifier starts with this prefix get the system
      instruction; the others reject a system role. */
  const ChatFamilyPrefix: string := "gpt"

  const SystemInstruction: string :=
    "Format responses with simple markdown: *bold* for emphasis, - for lists, and ` for code."

  /** `catalog[id]` on a dictionary: the display name stored under `id`, or
      None where Python raises `KeyError`. */
  function Lookup(catalog: seq<(string, string)>, id: string): (name: Option<string>)
    ensures name.Some? <==> exists k :: 0 <= k < |catalog| && catalog[k].0 == id
    ensures name.Some? ==> exists k :: 0 <= k < |catalog| && catalog[k] == (id, name.value)
  {
    if catalog == [] then None
    else if catalog[0].0 == id then Some(catalog[0].1)
    else
      var rest := Lookup(catalog[1..], id);
      assert forall k :: 1 <= k < |catalog| ==> catalog[k] == catalog[1..][k - 1];
      rest
  }

  /** `MODELS[id]`: the display name of a catalog identifier, and None for
      any other identifier. */
  function DisplayName(id: string): (name: Option<string>)
    ensures name.Some? <==> exists k :: 0 <= k < |Models| && Models[k].0 == id
    ensures forall k :: 0 <= k < |Models| && Models[k].0 == id ==> name == Some(Models[k].1)
  {
    CatalogWellFormed();
    Lookup(Models, id)
  }

  /** The catalog has distinct identifiers, none holding the `:` that
      separates the fields of callback data, and it holds the default. */
  lemma CatalogWellFormed()
    ensures forall j, k :: 0 <= j < k < |Models| ==> Models[j].0 != Models[k].0
    ensures forall k :: 0 <= k < |Models| ==> ':' !in Models[k].0
    ensures Lookup(Models, DefaultModel) == Some("O1 Mini")
  {
  }

  /** A selection button: what it shows and the data it sends back. */
  datatype Button = Button(text: string, callbackData: string)

  /** `model_command`: one button per catalog entry, in catalog order, each
      labelled with the display name and carrying `model:<id>`. Every
      button's data parses back to its own identifier. */
  method ModelCommand() returns (prompt: string, keyboard: seq<Button>)
    ensures prompt == "Choose an AI model:"
    ensures |keyboard| == |Models|
    ensures forall k :: 0 <= k < |Models| ==>
      keyboard[k] == Button(Models[k].1, CallbackPrefix + Models[k].0)
    ensures forall k :: 0 <= k < |Models| ==>
      ParseSelection(keyboard[k].callbackData) == Some(Models[k].0)
  {
    keyboard := [];
    for i := 0 to |Models|
      invariant |keyboard| == i
      invariant forall k :: 0 <= k < i ==> keyboard[k] == Button(Models[k].1, CallbackPrefix + Models[k].0)
    {
      var (modelId, modelName) := Models[i];
      keyboard := keyboard + [Button(modelName, CallbackPrefix + modelId)];
    }
    prompt := "Choose an AI model:";
    CatalogWellFormed();
    forall k | 0 <= k < |Models|
      ensures ParseSelection(keyboard[k].callbackData) == Some(Models[k].0)
    {
      SelectionRoundTrip(Models[k].0);
    }
  }

  /** The selection `button_callback` reads from callback data: data that
      starts with `model:` selects `data.split(":")[1]`, the text after the
      prefix up to the next `:` or the end; other data selects nothing. The
      identifier is not checked against the catalog. */
  function ParseSelection(data: string): (selected: Option<string>)
    ensures selected.Some? <==> StartsWith(data, CallbackPrefix)
    ensures selected.Some? ==> IsFirstField(data[|CallbackPrefix|..], ':', selected.value)
  {
    if StartsWith(data, CallbackPrefix) then
      var rest := data[|CallbackPrefix|..];
      assert data == "model" + [':'] + rest;
      SplitAfterField("model", ':', rest);
      SplitFirstField(rest, ':');
      Some(Split(data, ':')[1])
    else
      None
  }

  /** Button data built from an identifier parses back to that identifier
      exactly when the identifier holds no `:`. */
  lemma SelectionRoundTrip(id: string)
    ensures ParseSelection(CallbackPrefix + id) == Some(id) <==> ':' !in id
  {
    var data := CallbackPrefix + id;
    assert data[|CallbackPrefix|..] == id;
    assert StartsWith(data, CallbackPrefix);
    var selected := ParseSelection(data).value;
    assert IsFirstField(id, ':', selected);
    if ':' !in id {
      assert selected == id[..|selected|] == id;
    }
  }

  datatype Role = System | User

  /** One entry of the message list sent to the completion API. */
  datatype ChatMessage = ChatMessage(role: Role, content: string)

  /** What `answer_question` asks the completion API for. */
  datatype Request = Request(model: string, messages: seq<ChatMessage>)

  /** The completion API's answer to a request: the reply text, or any
      failure (network, API error, missing content). */
  datatype Completion = Answer(text: string) | Failed

  /** The `messages` list of `answer_question`: the system instruction only
      for models whose identifier starts with "gpt", then exactly one user
      entry holding the question. */
  function BuildMessages(model: string, question: string): (messages: seq<ChatMessage>)
    ensures 1 <= |messages| <= 2
    ensures messages[|messages| - 1] == ChatMessage(User, question)
    ensures forall k :: 0 <= k < |messages| - 1 ==> messages[k] == ChatMessage(System, SystemInstruction)
    ensures (exists k :: 0 <= k < |messages| && messages[k].role == System) <==> StartsWith(model, ChatFamilyPrefix)
  {
    var system := if StartsWith(model, ChatFamilyPrefix) then [ChatMessage(System, SystemInstruction)] else [];
    var messages := system + [ChatMessage(User, question)];
    assert system != [] ==> messages[0].role == System;
    messages
  }

  /** A reply that shows `name` in bold between a fixed `head` and `tail`. */
  function Bolded(head: string, name: string, tail: string): (message: string)
    ensures |message| == |head| + |name| + 2 + |tail|
    ensures OccursAt(message, "*" + name + "*", |head|)
  {
    var message := head + "*" + name + "*" + tail;
    assert message[|head|..|head| + |name| + 2] == "*" + name + "*";
    message
  }

  /** Two replies of the same shape are equal only for the same name. */
  lemma {:induction false} BoldedNamesOne(head: string, tail: string, a: string, b: string)
    requires Bolded(head, a, tail) == Bolded(head, b, tail)
    ensures a == b
  {
    var m := Bolded(head, a, tail);
    assert ("*" + a + "*")[1..|a| + 1] == a;
    assert ("*" + b + "*")[1..|b| + 1] == b;
    assert m[|head|..|head| + |a| + 2] == "*" + a + "*";
  }

  /** The reply to `/start`, naming the current model in bold. */
  function Greeting(name: string): (message: string)
    ensures OccursAt(message, "*" + name + "*", |"*Hello!* I am your AI assistant.\nCurrently using "|)
    ensures |message| == |"*Hello!* I am your AI assistant.\nCurrently using "| + |name| + 2
                       + |".\n\nUse /model to change the AI model."|
  {
    Bolded("*Hello!* I am your AI assistant.\nCurrently using ", name,
           ".\n\nUse /model to change the AI model.")
  }

  /** The reply to a selection, naming the new model in bold. */
  function Confirmation(name: string): (message: string)
    ensures OccursAt(message, "*" + name + "*", |"Model changed to "|)
    ensures |message| == |"Model changed to "| + |name| + 2
  {
    Bolded("Model changed to ", name, "")
  }

  /** The notice sent instead of an answer when the completion API fails,
      naming the current model in bold. */
  function ErrorNotice(name: string): (message: string)
    ensures OccursAt(message, "*" + name + "*",
                     |"*Error:* I encountered an error processing your request.\n\nCurrent model: "|)
    ensures |message| == |"*Error:* I encountered an error processing your request.\n\nCurrent model: "| + |name| + 2
                       + |"\n\nTry changing the model with /model or try again later."|
  {
    Bolded("*Error:* I encountered an error processing your request.\n\nCurrent model: ", name,
           "\n\nTry changing the model with /model or try again later.")
  }

  /** Each of the three replies tells the models apart: different names give
      different texts. */
  lemma RepliesNameTheModel(a: string, b: string)
    ensures Greeting(a) == Greeting(b) ==> a == b
    ensures Confirmation(a) == Confirmation(b) ==> a == b
    ensures ErrorNotice(a) == ErrorNotice(b) ==> a == b
  {
    if Greeting(a) == Greeting(b) {
      BoldedNamesOne("*Hello!* I am your AI assistant.\nCurrently using ", ".\n\nUse /model to change the AI model.", a, b);
    }
    if Confirmation(a) == Confirmation(b) {
      BoldedNamesOne("Model changed to ", "", a, b);
    }
    if ErrorNotice(a) == ErrorNotice(b) {
      BoldedNamesOne("*Error:* I encountered an error processing your request.\n\nCurrent model: ",
                     "\n\nTry changing the model with /model or try again later.", a, b);
    }
  }

  /** A reply that names the display name of `id`, or no reply where
      looking the name up raises `KeyError`. */
  function NamedReply(id: string, reply: string -> string): (message: Option<string>)
    ensures message.Some? <==> exists k :: 0 <= k < |Models| && Models[k].0 == id
    ensures forall k :: 0 <= k < |Models| && Models[k].0 == id ==> message == Some(reply(Models[k].1))
  {
    match DisplayName(id)
    case Some(name) => Some(reply(name))
    case None => None
  }

  /** One user's `context.user_data`: the selected model, absent until the
      first command or question. */
  class UserData {
    var model: Option<string>

    constructor ()
      ensures model == None
    {
      model := None;
    }

    /** `if 'model' not in context.user_data: ... = 'o1-mini'`: a stored
        selection is kept, an absent one becomes the default. */
    method EnsureModel() returns (current: string)
      modifies this
      ensures old(model).None? ==> model == Some(DefaultModel)
      ensures old(model).Some? ==> model == old(model)
      ensures model == Some(current)
    {
      if model.None? {
        model := Some(DefaultModel);
      }
      current := model.value;
    }

    /** `start`: defaults the selection and greets with the model's display
        name. */
    method Start() returns (reply: Option<string>)
      modifies this
      ensures old(model).None? ==> model == Some(DefaultModel) && reply == Some(Greeting("O1 Mini"))
      ensures old(model).Some? ==> model == old(model)
      ensures model.Some? && reply == NamedReply(model.value, Greeting)
    {
      var current := EnsureModel();
      CatalogWellFormed();
      match DisplayName(current)
      case Some(name) => reply := Some(Greeting(name));
      case None => reply := None;
    }

    /** `button_callback`: data starting with `model:` stores the selected
        identifier, whatever it is, and confirms with its display name; any
        other data changes nothing and sends nothing. */
    method ButtonCallback(data: string) returns (reply: Option<string>)
      modifies this
      ensures !StartsWith(data, CallbackPrefix) ==> model == old(model) && reply == None
      ensures StartsWith(data, CallbackPrefix) ==>
        model.Some? && IsFirstField(data[|CallbackPrefix|..], ':', model.value)
      ensures StartsWith(data, CallbackPrefix) ==>
        model == ParseSelection(data) && reply == NamedReply(model.value, Confirmation)
    {
      reply := None;
      if StartsWith(data, CallbackPrefix) {
        var selected := ParseSelection(data).value;
        model := Some(selected);
        match DisplayName(selected)
        case Some(name) => reply := Some(Confirmation(name));
        case None =>
      }
    }

    /** `answer_question`: defaults the selection, asks the completion API
        with the stored model and the message list, and sends either the
        whole answer in chunks or, on failure, one notice naming the model;
        never both. `response` is what the API returns for `request`. */
    method AnswerQuestion(question: string, response: Completion) returns (request: Request, sent: seq<string>)
      modifies this
      ensures old(model).None? ==> model == Some(DefaultModel)
      ensures old(model).Some? ==> model == old(model)
      ensures model.Some? && request == Request(model.value, BuildMessages(model.value, question))
      ensures response.Answer? ==>
        && (exists groups :: IsGreedyChunking(SplitLines(FormatForTelegram(response.text)), MaxMessageLength, groups, sent))
        && Concat(sent) == FormatForTelegram(response.text) + "\n"
        && |sent| >= 1
      ensures response.Failed? ==>
        sent == match NamedReply(model.value, ErrorNotice) case Some(notice) => [notice] case None => []
    {
      var current := EnsureModel();
      var messages := BuildMessages(current, question);
      request := Request(current, messages);
      match response
      case Answer(answer) =>
        ghost var groups;
        sent, groups := SendLongMessage(answer, MaxMessageLength);
      case Failed =>
        match DisplayName(current)
        case Some(name) => sent := [ErrorNotice(name)];
        case None => sent := [];
    }
  }

  /** "gpt-4o" gets the system instruction before the question; the
      default "o1-mini" gets the question alone. */
  lemma SystemInstructionByModel(question: string)
    ensures BuildMessages("gpt-4o", question)
         == [ChatMessage(System, SystemInstruction), ChatMessage(User, question)]
    ensures BuildMessages(DefaultModel, question) == [ChatMessage(User, question)]
  {
    assert StartsWith("gpt-4o", ChatFamilyPrefix);
    assert DefaultModel[..|ChatFamilyPrefix|][0] != ChatFamilyPrefix[0];
  }
}
