/** The records the shell passes between its components. The declarations
    live in the repository's `types.ts`; their shape here follows how the
    core files build and read them. */
module Types {
  import opened Js

  /** One user action: what was clicked or submitted, in which application.
      `interactionType` is the record's `type` field; `value` is absent when
      the element carries none, and `appContext` is `null` outside an app. */
  datatype InteractionData = InteractionData(
    id: string,
    interactionType: string,
    value: Option<string>,
    elementType: string,
    elementText: string,
    appContext: Option<string>)

  datatype UserProfile = UserProfile(username: string, avatar: string)

  /** An entry of the desktop's application table. */
  datatype AppDefinition = AppDefinition(id: string, name: string, icon: string, color: string)
}
