/**
 * The documents the backend keeps in its collections (the pydantic models
 * of backend/server.py), reduced to the fields the modelled operations
 * read or write. Timestamps are integers (seconds); the source stores ISO
 * strings of one fixed format, which order the same way.
 */
module Records {
  import opened Wrappers

  /** TrafficLog; the confidence score in tenths. Geolocation is not modelled. */
  datatype LogRecord = LogRecord(id: string, domainId: string, userId: string,
                                 ipAddress: string, userAgent: string,
                                 detectedBot: Option<string>, botProvider: Option<string>,
                                 confidence: nat, riskLevel: string,
                                 requestPath: string, requestMethod: string, timestamp: int)

  datatype ApiKeyRecord = ApiKeyRecord(id: string, userId: string, key: string, name: string, isActive: bool)

  datatype DomainRecord = DomainRecord(id: string, userId: string, domain: string,
                                       verificationToken: string, isVerified: bool,
                                       verifiedAt: Option<int>)

  datatype AlertRecord = AlertRecord(id: string, userId: string, alertType: string,
                                     destination: string, threshold: int, isActive: bool)
}
