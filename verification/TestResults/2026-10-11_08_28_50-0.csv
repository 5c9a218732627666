TestResult.DisplayName,TestResult.Outcome,TestResult.Duration,TestResult.ResourceCount,RandomSeed
AppSettings.FillSettings (correctness),Passed,00:00:00.5991869,1450574,0
AppSettings.EmptyInfoSettings (correctness),Passed,00:00:00.4401009,826484,0
AppSettings.StoredBrandingReachesRecord (correctness),Passed,00:00:00.4196363,620434,0
AppSettings.Parsed (well-formedness),Passed,00:00:00.3906689,459130,0
AppSettings.ParseSettings (correctness),Passed,00:00:00.3724928,386186,0
AppSettings.Branded (well-formedness),Passed,00:00:00.3368126,248157,0
AppSettings.FetchDomainData (correctness),Passed,00:00:00.2799699,393280,0
AppSettings.FilterFailureKeepsDefaults (correctness),Passed,00:00:00.2582682,295755,0
AppSettings.FetchDomainData (well-formedness),Passed,00:00:00.2575434,255913,0
AppSettings.FilterFailureKeepsDefaults (well-formedness),Passed,00:00:00.2470857,196134,0
AppSettings.Wired (well-formedness),Passed,00:00:00.2235237,201019,0
AppSettings.FromSection (well-formedness),Passed,00:00:00.2034718,306916,0
AppSettings.FillSettings (well-formedness),Passed,00:00:00.1815057,177967,0
AppSettings.CurrentDomain (well-formedness),Passed,00:00:00.1490236,8436,0
AppSettings.ValidArray (well-formedness),Passed,00:00:00.1490167,19050,0
AppSettings.AppSection (well-formedness),Passed,00:00:00.1454608,201026,0
AppSettings.ProtocolPercents (well-formedness),Passed,00:00:00.0465873,66047,0
AppSettings.DefaultSettings (well-formedness),Passed,00:00:00.0430243,53135,0
AppSettings.IfValidArray (well-formedness),Passed,00:00:00.0208985,24824,0
AppSettings.ChainOrZero (well-formedness),Passed,00:00:00.0090785,7043,0
