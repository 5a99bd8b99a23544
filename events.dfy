/**
 * The messages that travel over the real-time channel, each a JSON object
 * with a `type` tag (`user_login`, `user_logout`, `current_article`,
 * `image_updated`, `error`).
 */
module Events {
  import opened Wrappers
  import opened Json

  datatype Message =
    | UserLogin(userId: int, userName: string)
    | UserLogout(prevUserId: Option<int>, prevUserName: string)
      /** `image` names the file whose bytes travel inline as `image_base64`. */
    | CurrentArticle(ean: JVal, name: JVal, image: Option<string>)
    | ImageUpdated(imageEan: string, imagePath: Option<string>, timestamp: int, imageBase64: Option<string>)
    | Error(message: string)
}
