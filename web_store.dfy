/** The web application's tables (app/models.py), as far as the admin and statistics
    routes read and write them: `users` by primary key, `settings` by key, and the
    `downloads` rows, which the routes only count. */
module WebStore {
  import opened Common

  /** A row of the web application's `users` table (app/models.py:35-48); the warning
      counters and activity times, which no modelled route touches, are left out. */
  datatype WebUser = WebUser(
    telegramUserId: int,
    firstName: Option<string>,
    lastName: Option<string>,
    username: Option<string>,
    isBanned: bool,
    banReason: Option<string>,
    joinedAt: Timestamp)

  /** A row of `settings` (app/models.py:111-117) without its key, which the map holds;
      `value` is a nullable text column. */
  datatype SettingRow = SettingRow(value: Option<string>, description: Option<string>, lastUpdatedAt: Option<Timestamp>)

  /** A row of `downloads` (app/models.py:59-67). */
  datatype DownloadRow = DownloadRow(
    userId: int,
    contentType: Option<string>,
    contentUrl: Option<string>,
    downloadedAt: Timestamp,
    status: string,
    errorMessage: Option<string>)

  /** The database as one session of the web application sees it. */
  class Store {
    var users: map<int, WebUser>
    var settings: map<string, SettingRow>
    var downloads: seq<DownloadRow>

    constructor (users: map<int, WebUser>, settings: map<string, SettingRow>, downloads: seq<DownloadRow>)
      ensures this.users == users && this.settings == settings && this.downloads == downloads
    {
      this.users := users;
      this.settings := settings;
      this.downloads := downloads;
    }
  }

  /** The warning both the settings page and the statistics API fall back to when no
      `warning_message_text` row exists (app/routes/admin.py:121, app/routes/main.py:62). */
  const DefaultWarningText: string := "يمنع استخدام البوت لتحميل محتوى غير اخلاقي ويتم حظر اي شخص"
  const DefaultWarningColor: string := "red"

  const WarningTextKey: string := "warning_message_text"
  const WarningColorKey: string := "warning_message_color"
}
