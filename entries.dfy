/** Home Assistant's config entry, as far as this integration reads and
    rewrites it, and the configuration keys it stores. */
module Entries {
  import opened Wrappers

  const CONF_USERNAME := "username"
  const CONF_PASSWORD := "password"
  const CONF_AUTHENTICATION := "authentication"
  const CONF_ACCESS_TOKEN := "access_token"
  const CONF_TOKEN := "token"
  const CONF_SITE := "site_reference"

  /** The integration's domain, and the unique id every entry had before sites existed. */
  const DOMAIN := "frank_energie"

  /** A config entry: its fixed id, and the unique id, data and options the
      host lets the integration replace. */
  class ConfigEntry {
    const entryId: string
    var uniqueId: Option<string>
    var data: map<string, string>
    var options: map<string, string>

    constructor (entryId: string, uniqueId: Option<string>, data: map<string, string>, options: map<string, string>)
      ensures this.entryId == entryId && this.uniqueId == uniqueId
      ensures this.data == data && this.options == options
    {
      this.entryId := entryId;
      this.uniqueId := uniqueId;
      this.data := data;
      this.options := options;
    }
  }
}
