/** The conversation messages the bot stores and replays (LangChain's message classes). */
module Messages {

  /**
   * A chat message. `SystemMessage` stands for every message class that is
   * neither a human nor an AI message.
   */
  datatype Message =
    | HumanMessage(content: string)
    | AIMessage(content: string)
    | SystemMessage(content: string)
}
