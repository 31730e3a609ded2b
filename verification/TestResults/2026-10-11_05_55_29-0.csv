TestResult.DisplayName,TestResult.Outcome,TestResult.Duration,TestResult.ResourceCount,RandomSeed
BoundingBoxes.KeptOrder (correctness),Passed,00:00:00.1970037,160313,1
BoundingBoxes.KeptOrder (well-formedness),Passed,00:00:00.1422723,33387,1
