/** The records of the application: conversations and their messages, and sales
    leads. Dates are ticks of the injected clock. */
module Types {

  import opened Wrappers

  datatype Role = User | Assistant

  /** One turn of a conversation. */
  datatype Message = Message(id: string, role: Role, content: string, timestamp: nat)

  /** A titled, time-stamped thread of messages. */
  datatype Conversation = Conversation(
    id: string,
    title: string,
    messages: seq<Message>,
    createdAt: nat,
    updatedAt: nat)

  datatype LeadStatus = New | Qualified | Contacted | Responded | Converted

  /** A prospect in the leads table; `linkedinUrl` and `score` are optional. */
  datatype Lead = Lead(
    id: string,
    name: string,
    email: string,
    company: string,
    title: string,
    linkedinUrl: Option<string>,
    status: LeadStatus,
    score: Option<int>,
    source: string,
    createdAt: nat,
    updatedAt: nat)
}
