/** The text-generation backend (`AutoChatbot`), a foreign service: two flags
    read from its configuration, an opaque context with get and set, and a send
    whose reply is arbitrary. */
module Backend {

  /** The part of a model configuration the generator looks at. */
  datatype Config = Config(name: string, keepContext: bool, isRemote: bool,
                           keepResponseInContext: bool)

  class Chatbot {
    const name: string
    const keepContext: bool
    const isRemote: bool
    const config: Config
    /** What the backend remembers of the conversation; never inspected. */
    var context: seq<string>
    /** Every message sent so far, oldest first. */
    ghost var sent: seq<string>
    /** Every reply received so far, oldest first. */
    ghost var replies: seq<string>

    constructor(config: Config)
      ensures this.config == config
      ensures name == config.name && keepContext == config.keepContext && isRemote == config.isRemote
      ensures context == [] && sent == [] && replies == []
    {
      this.config := config;
      name := config.name;
      keepContext := config.keepContext;
      isRemote := config.isRemote;
      context := [];
      sent := [];
      replies := [];
    }

    /** `get_context` */
    function GetContext(): seq<string>
      reads this
    {
      context
    }

    /** `set_context`: the context becomes `c` and nothing else changes. */
    method SetContext(c: seq<string>)
      modifies this
      ensures context == c && sent == old(sent) && replies == old(replies)
    {
      context := c;
    }

    /** `send_message`: the reply and the new context may be anything; the
        message is recorded as sent and the reply as received. */
    method SendMessage(message: string) returns (response: string)
      modifies this
      ensures sent == old(sent) + [message]
      ensures replies == old(replies) + [response]
    {
      response :| true;
      var next: seq<string> :| true;
      context := next;
      sent := sent + [message];
      replies := replies + [response];
    }
  }
}
