/** Chat messages as the LangChain message classes the core uses carry
    them: a kind and a text. */
module Messages {
  /** `HumanMessage`, `AIMessage`, `SystemMessage`, or any other message
      class, known by its `type` string. */
  datatype Role = Human | Ai | System | Other(typeName: string)

  datatype Message = Message(role: Role, content: string)
}
