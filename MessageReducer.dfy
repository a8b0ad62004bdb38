/** `messageReducer` of frontend/src/redux/reducers/message.js: builder
    cases that assign fields of the draft state and push onto `messages`
    in place. Message objects are carried as opaque values. */
module MessageReducer {
  import opened Basics

  class MessageStore<Message> {
    var messages: seq<Message>
    var isLoading: bool
    var error: Option<string>

    constructor ()
      ensures messages == [] && !isLoading && error == None
    {
      messages := [];
      isLoading := false;
      error := None;
    }

    /** `createMessageRequest` and `getAllMessagesRequest`. */
    method Request()
      modifies this`isLoading, this`error
      ensures isLoading && error == None
    {
      isLoading := true;
      error := None;
    }

    /** `createMessageSuccess`: the new message goes at the end. */
    method CreateMessageSuccess(m: Message)
      modifies this`isLoading, this`messages
      ensures !isLoading
      ensures messages == old(messages) + [m]
    {
      isLoading := false;
      messages := messages + [m];
    }

    method GetAllMessagesSuccess(payload: seq<Message>)
      modifies this`isLoading, this`messages
      ensures !isLoading && messages == payload
    {
      isLoading := false;
      messages := payload;
    }

    /** `createMessageFail` and `getAllMessagesFail`. */
    method Fail(e: string)
      modifies this`isLoading, this`error
      ensures !isLoading && error == Some(e)
    {
      isLoading := false;
      error := Some(e);
    }
  }
}
