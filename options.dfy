/** The configuration the builder and the service are given. */
module Options {
  import opened Common

  /** SendGridServiceOptions: read-only settings bound from configuration. */
  datatype ServiceOptions = ServiceOptions(
    adminEmail: Option<string>,
    adminName: Option<string>,
    sendGridApiKey: Option<string>,
    additionalApiKeys: Option<map<string, string>>,
    alwaysTemplateEmails: bool,
    addEnvironmentSuffix: bool)
}
