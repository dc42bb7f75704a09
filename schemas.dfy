/** The response and request shapes of the HTTP API (backend/app/api/schemas.py
    and backend/app/schemas/file.py), as plain records. A `Message` is a
    `Models.MessageRow`. */
module Schemas {
  import opened Wrappers
  import opened Models

  /** `ChatResponse`: a chat with the number of its messages. */
  datatype ChatResponse = ChatResponse(id: int, title: string, modelProvider: string, modelName: string,
                                       createdAt: int, updatedAt: Option<int>, messageCount: nat)

  /** `Chat`: a chat with its messages. */
  datatype ChatDetail = ChatDetail(id: int, title: string, modelProvider: string, modelName: string,
                                   createdAt: int, updatedAt: Option<int>, messages: seq<MessageRow>)

  datatype SendMessageRequest = SendMessageRequest(content: string, provider: string, model: string,
                                                   thinkingMode: bool, deepResearchMode: bool)

  datatype SendMessageResponse = SendMessageResponse(message: MessageRow, assistantResponse: MessageRow,
                                                     chat: ChatResponse)

  /** `FileUploadResponse`: a stored file without its content. */
  datatype FileUploadResponse = FileUploadResponse(id: int, filename: string, originalFilename: string,
                                                   fileType: string, fileSize: int, createdAt: int)

  function Summary(c: ChatRow, messageCount: nat): ChatResponse
  {
    ChatResponse(c.id, c.title, c.modelProvider, c.modelName, c.createdAt, Some(c.updatedAt), messageCount)
  }

  function Detail(c: ChatRow, messages: seq<MessageRow>): ChatDetail
  {
    ChatDetail(c.id, c.title, c.modelProvider, c.modelName, c.createdAt, Some(c.updatedAt), messages)
  }

  function FileResponse(f: FileRow): FileUploadResponse
  {
    FileUploadResponse(f.id, f.filename, f.originalFilename, f.fileType, f.fileSize, f.createdAt)
  }
}
